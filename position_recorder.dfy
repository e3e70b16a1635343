/**
 * One recording session (src/www/js/position-recorder.js).
 *
 * The source subscribes, on every startRecording, to one position stream
 * shared by the whole module, through `takeWhile(isRecording)`. Here each
 * recorder lists its live subscriptions, each with the bus it republishes to,
 * and `Deliver` plays the shared stream emitting one position to them.
 */
module Recorder {
  import opened PositionUtils

  /** The stream returned by startRecording (a Bacon bus): what it has pushed so far. */
  class Bus {
    var pushed: seq<Position>

    constructor ()
      ensures pushed == []
    {
      pushed := [];
    }
  }

  /** `n` copies of `p`: what `n` live subscriptions append for one delivery. */
  function Copies(p: Position, n: nat): seq<Position>
  {
    seq(n, _ => p)
  }

  class PositionRecorder {
    var recordingFlag: bool
    /** Append-only buffer of every position accepted by a live subscription. */
    var positions: seq<Position>
    /** The live subscriptions to the shared stream, oldest first, each with its output bus. */
    var subscriptions: seq<Bus>

    /** Every subscription republishes to its own bus. */
    ghost predicate Valid()
      reads this
    {
      forall i, j :: 0 <= i < j < |subscriptions| ==> subscriptions[i] != subscriptions[j]
    }

    constructor ()
      ensures Valid()
      ensures !recordingFlag && positions == [] && subscriptions == []
    {
      recordingFlag := false;
      positions := [];
      subscriptions := [];
    }

    method IsRecording() returns (recording: bool)
      ensures recording == recordingFlag
    {
      recording := recordingFlag;
    }

    method GetRecordedPositions() returns (recorded: seq<Position>)
      ensures recorded == positions
    {
      recorded := positions;
    }

    /**
     * Raises the flag and opens one more subscription, whether or not one is
     * still live; returns the new subscription's output stream.
     */
    method StartRecording() returns (stream: Bus)
      requires Valid()
      modifies this
      ensures Valid()
      ensures recordingFlag
      ensures positions == old(positions)
      ensures fresh(stream) && stream.pushed == []
      ensures subscriptions == old(subscriptions) + [stream]
    {
      stream := new Bus();
      recordingFlag := true;
      subscriptions := subscriptions + [stream];
    }

    /**
     * Lowers the flag. The subscriptions stay live until the next delivery,
     * which ends them.
     */
    method StopRecording()
      modifies this`recordingFlag
      ensures !recordingFlag
      ensures positions == old(positions) && subscriptions == old(subscriptions)
    {
      recordingFlag := false;
    }

    /**
     * The shared stream emits `p`. Each live subscription checks isRecording:
     * if true it appends `p` to the buffer and pushes it on its bus; if false
     * it ends without passing `p` on.
     */
    method Deliver(p: Position)
      requires Valid()
      modifies this, subscriptions
      ensures Valid()
      ensures recordingFlag == old(recordingFlag)
      ensures old(recordingFlag) ==>
                positions == old(positions) + Copies(p, |old(subscriptions)|)
                && subscriptions == old(subscriptions)
      ensures old(recordingFlag) && |old(subscriptions)| == 1 ==> positions == old(positions) + [p]
      ensures !old(recordingFlag) ==> positions == old(positions) && subscriptions == []
      ensures forall i :: 0 <= i < |old(subscriptions)| ==>
                old(subscriptions)[i].pushed
                == if old(recordingFlag) then old(subscriptions[i].pushed) + [p]
                   else old(subscriptions[i].pushed)
    {
      var live: seq<Bus> := [];
      var i := 0;
      while i < |subscriptions|
        invariant 0 <= i <= |subscriptions|
        invariant subscriptions == old(subscriptions) && recordingFlag == old(recordingFlag)
        invariant live == if recordingFlag then subscriptions[..i] else []
        invariant positions == old(positions) + if recordingFlag then Copies(p, i) else []
        invariant forall j :: 0 <= j < i ==>
                    subscriptions[j].pushed
                    == if recordingFlag then old(subscriptions[j].pushed) + [p] else old(subscriptions[j].pushed)
        invariant forall j :: i <= j < |subscriptions| ==> subscriptions[j].pushed == old(subscriptions[j].pushed)
      {
        var bus := subscriptions[i];
        if recordingFlag {
          positions := positions + [p];
          bus.pushed := bus.pushed + [p];
          live := live + [bus];
        }
        i := i + 1;
      }
      subscriptions := live;
    }
  }
}
