/** The free usage manager as it runs: one method per stretch between waits. */
module FreeUsageManager {
  import opened Wrappers
  import opened FreeUsage

  /** How the store takes an acknowledged session: it may refuse the row, or fail
      while the other rows are being retired. */
  datatype Storing = Refused | Stopped(retired: set<Channel>) | Stored

  function AckStep(c: Channel, storing: Storing): Step {
    match storing
    case Refused => AckNotStored(c)
    case Stopped(retired) => AckStopped(c, retired)
    case Stored => Ack(c)
  }

  function SignedStep(pid: Pid, stored: bool): Step {
    if stored then Signed(pid) else SignedNotStored(pid)
  }

  /** The part of the state one process works on, with its store. */
  class BuyerFreeUsageManager {
    var tail: Option<Pid>
    var chain: nat
    var length: nat
    var sessions: map<Channel, Session>
    var current: Option<Channel>
    var rows: map<Channel, Row>

    /** `listed` are the active channels in the order the store lists them; the first is taken. */
    constructor (rows: map<Channel, Row>, listed: seq<Channel>, chain: nat, ghost s: State)
      requires forall c :: c in listed <==> c in rows && rows[c].active
      requires s.rows == rows && chain == s.chain + 1
      ensures var hydrated := if listed == [] then None else Some(listed[0]);
        Hydratable(rows, hydrated) && Of(Restarted(s, hydrated))
    {
      this.rows, this.chain, tail, length := rows, chain, None, 0;
      current := if listed == [] then None else Some(listed[0]);
      sessions := if listed == [] then map[] else map[listed[0] := Hydrate(rows[listed[0]], chain)];
    }

    ghost predicate Of(s: State)
      reads this
    {
      tail == s.tail && chain == s.chain && length == s.length && sessions == s.sessions && current == s.current && rows == s.rows
    }

    /** A session that lives for another half minute is kept. */
    method BeginOpen(now: nat, ghost s: State) returns (proceed: bool)
      requires Of(s) && Good(s)
      ensures proceed <==> s.current.None? || s.sessions[s.current.value].deadline <= now + 30
      ensures Of(s)
    {
      proceed := !(current.Some? && current.value in sessions && sessions[current.value].deadline > now + 30);
    }

    /** After signing: set the session and send; if that fails, put back the one found before. */
    method FinishOpen(c: Channel, deadline: nat, found: Option<Channel>, sent: bool, ghost s: State)
      requires Of(s) && Enabled(s, if sent then Open(c, deadline) else OpenFailed(found))
      modifies this
      ensures Of(Next(s, if sent then Open(c, deadline) else OpenFailed(found)))
    {
      if sent {
        sessions, current := sessions[c := Session(0, 0, 0, 0, false, deadline, chain)], Some(c);
      } else {
        current := found;
        if found.Some? {
          sessions := sessions[found.value := sessions[found.value].(chain := chain)];
        }
      }
    }

    /** Acknowledge, persist, and retire the other channels; a store that throws stops it. */
    method HandleAck(c: Channel, storing: Storing, ghost s: State)
      requires Of(s)
      modifies this
      ensures Of(Next(s, AckStep(c, storing)))
    {
      if current != Some(c) || c !in sessions {
        return;
      }
      sessions := sessions[c := sessions[c].(acked := true)];
      if storing.Refused? {
        return;
      }
      rows := Persist(rows, c, sessions[c]);
      rows := if storing.Stopped? then RetireSome(rows, c, storing.retired) else Retire(rows, c);
    }

    method OnOpenTimeout(c: Channel, ghost s: State)
      requires Of(s)
      modifies this
      ensures Of(Next(s, OpenTimeout(c)))
    {
      if current != Some(c) || c !in sessions || sessions[c].acked {
        return;
      }
      current := None;
      if c in rows {
        rows := rows[c := rows[c].(active := false)];
      }
    }

    method OnPeerDisconnect(ghost s: State)
      requires Of(s)
      modifies this
      ensures Of(Next(s, Disconnect))
    {
      tail, chain, length, current := None, chain + 1, 0, None;
    }

    /** Chain the ask behind the latest one. */
    method HandleNeedAuth(pid: Pid, c: Channel, sequence: nat, input: nat, output: nat, ghost s: State) returns (a: Ask)
      requires Of(s) && Enabled(s, Arrive(pid, c, sequence, input, output))
      modifies this
      ensures var t := Next(s, Arrive(pid, c, sequence, input, output));
        Of(t) && t.asks == s.asks[pid := a]
    {
      a := Ask(tail, chain, length, c, sequence, input, output, Queued);
      tail, length := Some(pid), length + 1;
    }

    /** The first half: what to sign, if anything. */
    method BeginNeedAuth(pid: Pid, a: Ask, ghost s: State) returns (usage: Option<Usage>)
      requires Of(s) && Enabled(s, Begin(pid)) && s.asks[pid] == a
      ensures var t := Next(s, Begin(pid));
        Of(t) && t.asks[pid].phase == if usage.Some? then Signing(usage.value) else Over
    {
      if current != Some(a.channel) || a.channel !in sessions || a.sequence <= sessions[a.channel].latest {
        return None;
      }
      var t := sessions[a.channel];
      usage := Some(Usage(t.count + 1, t.input + a.input, t.output + a.output));
    }

    /** The second half, once signed: send, remember, persist; the store may refuse. */
    method FinishNeedAuth(pid: Pid, a: Ask, stored: bool, ghost s: State) returns (sent: Auth)
      requires Of(s) && IsSigning(s, pid) && s.asks[pid] == a && a.channel in sessions
      modifies this
      ensures var t := Next(s, SignedStep(pid, stored)); Of(t) && t.sent == s.sent + [sent]
    {
      sent := AuthOf(a);
      var t := sessions[a.channel].(latest := a.sequence, count := sent.usage.count, input := sent.usage.input, output := sent.usage.output);
      sessions := sessions[a.channel := t];
      if stored {
        rows := Persist(rows, a.channel, t);
      }
    }
  }
}
