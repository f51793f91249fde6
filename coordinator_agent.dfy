/** The coordinator: every transaction not yet processed is dispatched to one
    remediation agent, chosen by its concept. The agent call itself is a stub
    in the system, so a call is recorded in a dispatch log. */
module Coordinator {
  import opened Values

  /** `Transaction` (domain entity): identifier, concept and free-form data. */
  datatype Transaction = Transaction(transactionId: Value, concepto: string, data: Row)

  /** `AgentType`. */
  datatype AgentType = Remediation3C | Remediation2B

  function AgentLabel(a: AgentType): string
  {
    match a
    case Remediation3C => "Remediation Agent 3C"
    case Remediation2B => "Remediation Agent 2B"
  }

  /** A collection ('cobro') goes to the 3C agent; every other concept goes
      to the 2B agent. */
  function Route(t: Transaction): AgentType
  {
    if t.concepto == "cobro" then Remediation3C else Remediation2B
  }

  /** `is_transaction_processed`: its body is empty and its `None` result is
      falsy, so no transaction counts as processed. */
  predicate IsTransactionProcessed(t: Transaction)
  {
    false
  }

  /** The agent calls `process_transactions` makes, in order. */
  function Dispatches(ts: seq<Transaction>): seq<(Transaction, AgentType)>
  {
    if ts == [] then []
    else (if IsTransactionProcessed(ts[0]) then [] else [(ts[0], Route(ts[0]))]) + Dispatches(ts[1..])
  }

  /** Every transaction is dispatched exactly once, in input order, to the
      agent its concept selects: 3C exactly for 'cobro'. */
  lemma {:induction false} DispatchesSpec(ts: seq<Transaction>)
    ensures |Dispatches(ts)| == |ts|
    ensures forall i :: 0 <= i < |ts| ==> Dispatches(ts)[i] == (ts[i], Route(ts[i]))
    ensures forall i :: 0 <= i < |ts| ==> (Dispatches(ts)[i].1 == Remediation3C <==> ts[i].concepto == "cobro")
  {
    if ts != [] {
      DispatchesSpec(ts[1..]);
      assert forall i :: 1 <= i < |ts| ==> ts[i] == ts[1..][i - 1];
    }
  }

  lemma {:induction false} DispatchesAppend(a: seq<Transaction>, b: seq<Transaction>)
    ensures Dispatches(a + b) == Dispatches(a) + Dispatches(b)
  {
    if a == [] {
      assert a + b == b;
    } else {
      assert (a + b)[1..] == a[1..] + b;
      DispatchesAppend(a[1..], b);
    }
  }

  class CoordinatorAgent {
    const googleSheetId: string
    /** The agent calls made so far. */
    var log: seq<(Transaction, AgentType)>

    constructor(googleSheetId: string)
      ensures this.googleSheetId == googleSheetId && log == []
    {
      this.googleSheetId := googleSheetId;
      log := [];
    }

    /** `call_agent`. */
    method CallAgent(t: Transaction, agent: AgentType)
      modifies this`log
      ensures log == old(log) + [(t, agent)]
    {
      log := log + [(t, agent)];
    }

    /** `process_transactions`. */
    method ProcessTransactions(ts: seq<Transaction>)
      modifies this`log
      ensures log == old(log) + Dispatches(ts)
    {
      var i := 0;
      while i < |ts|
        invariant 0 <= i <= |ts|
        invariant log == old(log) + Dispatches(ts[..i])
      {
        var t := ts[i];
        DispatchesAppend(ts[..i], [t]);
        assert ts[..i + 1] == ts[..i] + [t];
        if IsTransactionProcessed(t) {
          i := i + 1;
          continue;
        }
        if t.concepto == "cobro" {
          CallAgent(t, Remediation3C);
        } else {
          CallAgent(t, Remediation2B);
        }
        i := i + 1;
      }
      assert ts[..|ts|] == ts;
    }
  }
}
