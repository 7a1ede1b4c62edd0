/** The debug handler (handler/__init__.py): routes a debug event's action, compared without
    regard to case, to one logging call per account. */
module DebugHandling {
  import opened Events

  /** One call the handler makes. */
  datatype Effect = LogAccount(account: nat) | LogTrade(account: nat) | LogOrder(account: nat) | TestMessage | PrintEvent

  /** `str.lower()` on ASCII letters. */
  function LowerChar(c: char): (r: char)
    ensures 'A' <= c <= 'Z' ==> 'a' <= r <= 'z'
    ensures !('A' <= c <= 'Z') ==> r == c
  {
    if 'A' <= c <= 'Z' then (c as int - 'A' as int + 'a' as int) as char else c
  }

  function Lower(s: string): (r: string)
    ensures |r| == |s|
    ensures forall i :: 0 <= i < |s| ==> r[i] == LowerChar(s[i])
  {
    if s == [] then [] else [LowerChar(s[0])] + Lower(s[1..])
  }

  /** The same call for every account, in account order. */
  function ForEach(accounts: seq<nat>, call: nat -> Effect): (r: seq<Effect>)
    ensures |r| == |accounts|
    ensures forall i :: 0 <= i < |accounts| ==> r[i] == call(accounts[i])
  {
    seq(|accounts|, i requires 0 <= i < |accounts| => call(accounts[i]))
  }

  /** `DebugHandler.process` given the context's accounts. */
  function DebugEffects(e: Event, accounts: seq<nat>): (r: seq<Effect>)
    ensures !(e.Debug? && accounts != []) <==> |r| == 1 && r[0] == PrintEvent
    ensures r != [PrintEvent] ==> |r| <= |accounts|
    ensures forall i :: 0 <= i < |r| && (r[i].LogAccount? || r[i].LogTrade? || r[i].LogOrder?) ==>
              i < |accounts| && r[i].account == accounts[i]
  {
    if e.Debug? && accounts != [] then
      var action := Lower(e.action);
      if action == "account" then ForEach(accounts, (a: nat) => LogAccount(a))
      else if action == "trade" then ForEach(accounts, (a: nat) => LogTrade(a))
      else if action == "order" then ForEach(accounts, (a: nat) => LogOrder(a))
      else if action == "test_message" then [TestMessage]
      else []
    else [PrintEvent]
  }

  /** The kind of call, without its account. */
  function Kind(x: Effect): nat
  {
    match x
    case LogAccount(_) => 0
    case LogTrade(_) => 1
    case LogOrder(_) => 2
    case TestMessage => 3
    case PrintEvent => 4
  }

  /** A debug event with accounts runs exactly one branch: all its calls are of one kind, and an
      account, trade or order action makes exactly one call per account, in account order.
      Anything else falls back to printing the event. */
  lemma DebugOneBranch(e: Event, accounts: seq<nat>)
    ensures var r := DebugEffects(e, accounts);
            forall i, j :: 0 <= i < |r| && 0 <= j < |r| ==> Kind(r[i]) == Kind(r[j])
    ensures !(e.Debug? && accounts != []) ==> DebugEffects(e, accounts) == [PrintEvent]
    ensures e.Debug? && accounts != [] && Lower(e.action) in {"account", "trade", "order"} ==>
              |DebugEffects(e, accounts)| == |accounts|
              && forall i :: 0 <= i < |accounts| ==> DebugEffects(e, accounts)[i].account == accounts[i]
    ensures e.Debug? && accounts != [] && Lower(e.action) !in {"account", "trade", "order", "test_message"} ==>
              DebugEffects(e, accounts) == []
  {
  }

  /** Actions that differ only in letter case do the same thing. */
  lemma {:induction false} DebugCaseInsensitive(a: string, b: string, tried: nat, accounts: seq<nat>)
    requires Lower(a) == Lower(b)
    ensures DebugEffects(Debug(a, tried), accounts) == DebugEffects(Debug(b, tried), accounts)
  {
  }

  /** An action reading "account" in any letter case ("ACCOUNT", "Account", ...) logs every
      account, in account order, and makes no other call. */
  lemma {:induction false} AccountInAnyCase(action: string, tried: nat, accounts: seq<nat>)
    requires accounts != [] && Lower(action) == "account"
    ensures DebugEffects(Debug(action, tried), accounts) == ForEach(accounts, (a: nat) => LogAccount(a))
    ensures Lower("ACCOUNT") == "account"
  {
    assert Lower("ACCOUNT") == "account";
  }
}
