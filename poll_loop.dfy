/**
 * The delivery loop of `main` in src/main.rs: the shared `running` flag
 * that the ctrl-c handler clears, the reusable encode buffer, and the
 * `while running.load(..)` loop that builds a snapshot each tick, skips an
 * empty one, and otherwise encodes it into the buffer, sends the buffer
 * and empties it.
 *
 * The run is driven by a trace of events. `Poll` is one iteration of the
 * `while` loop: the load of the flag at its top and, when that reads true,
 * the body, with the outputs the registered providers returned on that
 * tick and whether `send_to` succeeded. `Interrupt` is the ctrl-c handler,
 * which runs on its own thread, writes only the flag, and is observed by
 * the loop only at the load, so every interleaving is some such trace.
 */
module PollLoop {
  import opened Providers
  import Snapshot

  newtype byte = b: int | 0 <= b < 256

  datatype Event =
    | Interrupt
    | Poll(outputs: seq<string>, sendOk: bool)

  /** How a run ends: the trace ran out with the loop still polling, the flag read false, or a send failed. */
  datatype Exit = Polling | Stopped | SendFailed

  /** The snapshots delivered, in order, and how the run ended. */
  datatype Trace = Trace(delivered: seq<string>, exit: Exit)

  /**
   * The reference behaviour of the loop over `events`, starting with the
   * flag at `flag`: the snapshots it delivers and how it ends.
   */
  function Loop(events: seq<Event>, flag: bool): (r: Trace)
    ensures r.exit == Stopped ==> !flag || exists j :: 0 <= j < |events| && events[j].Interrupt?
    ensures r.exit == SendFailed ==> exists j :: 0 <= j < |events| && events[j].Poll? && !events[j].sendOk
    decreases |events|
  {
    if events == [] then Trace([], Polling)
    else match events[0]
      case Interrupt => Loop(events[1..], false)
      case Poll(outputs, sendOk) =>
        var info := Snapshot.Join(outputs, "\n");
        if !flag then Trace([], Stopped)
        else if info == "" then Loop(events[1..], true)
        else if !sendOk then Trace([], SendFailed)
        else var rest := Loop(events[1..], true); Trace([info] + rest.delivered, rest.exit)
  }

  /** The datagrams that carry `texts`, one each. */
  function Datagrams(encode: string -> seq<byte>, texts: seq<string>): (ds: seq<seq<byte>>)
    ensures |ds| == |texts|
    ensures forall i :: 0 <= i < |texts| ==> ds[i] == encode(texts[i])
  {
    seq(|texts|, i requires 0 <= i < |texts| => encode(texts[i]))
  }

  /** The number of loop iterations in `events`. */
  function PollCount(events: seq<Event>): nat
    decreases |events|
  {
    if events == [] then 0 else (if events[0].Poll? then 1 else 0) + PollCount(events[1..])
  }

  /** An empty snapshot is never delivered. */
  lemma {:induction false} DeliveredNonEmpty(events: seq<Event>, flag: bool)
    ensures forall i :: 0 <= i < |Loop(events, flag).delivered| ==> Loop(events, flag).delivered[i] != ""
    decreases |events|
  {
    if events != [] {
      DeliveredNonEmpty(events[1..], false);
      DeliveredNonEmpty(events[1..], true);
    }
  }

  /**
   * Once the flag is false nothing more is delivered and the loop does not
   * fail: no event sets the flag back to true.
   */
  lemma {:induction false} StoppedDeliversNothing(events: seq<Event>)
    ensures Loop(events, false).delivered == []
    ensures Loop(events, false).exit != SendFailed
    decreases |events|
  {
    if events != [] {
      StoppedDeliversNothing(events[1..]);
    }
  }

  /**
   * No iteration whose flag load follows the handler's store of false
   * delivers anything. The flag is loaded before the sleep, so an
   * iteration already past its load when the handler runs still sends.
   */
  lemma {:induction false} NothingAfterInterrupt(events: seq<Event>, flag: bool, k: nat)
    requires k < |events| && events[k].Interrupt?
    ensures Loop(events, flag).delivered == Loop(events[..k], flag).delivered
    decreases k
  {
    if k == 0 {
      StoppedDeliversNothing(events[1..]);
    } else {
      assert events[..k][0] == events[0];
      assert events[..k][1..] == events[1..][..k - 1];
      NothingAfterInterrupt(events[1..], false, k - 1);
      NothingAfterInterrupt(events[1..], true, k - 1);
    }
  }

  /** Each tick delivers at most one snapshot. */
  lemma {:induction false} AtMostOnePerTick(events: seq<Event>, flag: bool)
    ensures |Loop(events, flag).delivered| <= PollCount(events)
    decreases |events|
  {
    if events != [] {
      AtMostOnePerTick(events[1..], false);
      AtMostOnePerTick(events[1..], true);
    }
  }

  /**
   * The client state of `main`: the providers registered once from the
   * flags, the encoder, the shared flag, the reusable encode buffer and
   * the datagrams handed to the socket so far.
   */
  class Client {
    const infos: seq<Provider>
    const interval: nat
    const encode: string -> seq<byte>
    ghost const sampler: System
    var running: bool
    var buf: seq<byte>
    var sent: seq<seq<byte>>

    /** The set-up of `main` before the loop: flag raised, empty buffer, registry built. */
    constructor (args: Args, encode: string -> seq<byte>)
      requires args.Valid()
      ensures Kinds(infos) == Enabled(args, Order)
      ensures fresh(sampler) && forall p :: p in infos ==> p.SamplerIs(sampler)
      ensures interval == args.interval && this.encode == encode
      ensures running && buf == [] && sent == []
    {
      var sys := new System();
      var registry := BuildRegistry(args, sys);
      infos := registry;
      sampler := sys;
      interval := args.interval;
      this.encode := encode;
      running := true;
      buf := [];
      sent := [];
    }

    /** The ctrl-c handler: it only ever stores false. */
    method Interrupt()
      modifies this`running
      ensures !running
    {
      running := false;
    }

    /**
     * One loop body after the flag read true: build the snapshot; skip an
     * empty one; otherwise encode it into the buffer, send the buffer and
     * empty it. `ok` is false when the send failed, which ends `main`
     * with that error.
     */
    method Tick(outputs: seq<string>, sendOk: bool) returns (ok: bool)
      requires buf == []
      modifies this`buf, this`sent
      ensures ok <==> Snapshot.Join(outputs, "\n") == "" || sendOk
      ensures ok ==> buf == []
      ensures sent == if Snapshot.Join(outputs, "\n") != "" && sendOk
                      then old(sent) + [encode(Snapshot.Join(outputs, "\n"))]
                      else old(sent)
    {
      var info := Snapshot.GetInfo(outputs);
      if info == "" {
        return true;
      }
      assert buf + encode(info) == encode(info);
      buf := buf + encode(info);
      if !sendOk {
        return false;
      }
      sent := sent + [buf];
      buf := [];
      ok := true;
    }

    /**
     * The loop over a trace of events: what it sends is exactly the
     * encodings of the snapshots `Loop` delivers, one datagram each.
     */
    method Run(events: seq<Event>) returns (exit: Exit)
      requires buf == []
      requires forall i :: 0 <= i < |events| && events[i].Poll? ==> |events[i].outputs| == |infos|
      modifies this`running, this`buf, this`sent
      ensures exit == Loop(events, old(running)).exit
      ensures sent == old(sent) + Datagrams(encode, Loop(events, old(running)).delivered)
      ensures exit != SendFailed ==> buf == []
      ensures exit == Stopped ==> !running
      ensures exit == Polling ==> running == (old(running) && forall j :: 0 <= j < |events| ==> !events[j].Interrupt?)
    {
      var i := 0;
      ghost var done: seq<string> := [];
      exit := Polling;
      while i < |events|
        invariant 0 <= i <= |events|
        invariant buf == []
        invariant running == (old(running) && forall j :: 0 <= j < i ==> !events[j].Interrupt?)
        invariant sent == old(sent) + Datagrams(encode, done)
        invariant Loop(events, old(running)).exit == Loop(events[i..], running).exit
        invariant Loop(events, old(running)).delivered == done + Loop(events[i..], running).delivered
      {
        assert events[i..][1..] == events[i + 1..];
        match events[i] {
          case Interrupt =>
            Interrupt();
          case Poll(outputs, sendOk) =>
            if !running {
              exit := Stopped;
              assert done + [] == done;
              return;
            }
            var ok := Tick(outputs, sendOk);
            if !ok {
              exit := SendFailed;
              assert done + [] == done;
              return;
            }
            var info := Snapshot.Join(outputs, "\n");
            if info != "" {
              done := done + [info];
            }
        }
        i := i + 1;
      }
      assert done + [] == done;
    }
  }
}
