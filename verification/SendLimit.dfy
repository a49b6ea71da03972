/** The message limit of the communication policy by itself: one lead, event and purpose, any messages
    scheduled for them by anybody at any time, provider webhooks in any order, and any number of dispatchers
    (apps/execution-worker/src/engagement/scheduled-action-dispatcher.ts and processEmailWebhook in
    apps/api/src/modules/engagement/engagement.service.ts). */
module SendLimit {
  import opened CommunicationPolicy
  import opened Engagement
  import opened EngagementCrm

  /** `out` says that the provider has taken the message and given it an id. */
  datatype Letter = Letter(status: MessageStatus, out: bool)

  /** `underWay` maps each dispatcher to the message it has the policy's go-ahead for, if any. */
  datatype Desk = Desk(letters: map<nat, Letter>, blocked: bool, underWay: map<nat, Option<nat>>)

  function Counted(k: Desk): set<nat> {
    set m | m in k.letters && (k.letters[m].status.SENT? || k.letters[m].status.DELIVERED?)
  }

  function Out(k: Desk): set<nat> { set m | m in k.letters && k.letters[m].out }

  function Busy(k: Desk): set<nat> { set d | d in k.underWay && k.underWay[d].Some? }

  datatype Event =
    | ScheduleLetter(m: nat)
    | Check(d: nat, m: nat)
    | RecordSent(d: nat, delivered: bool)
    | Drop(d: nat)
    | Report(m: nat, kind: WebhookKind, read: MessageStatus)
    | Block

  /** One step. A check that finds the lead blocked or the limit reached suppresses the message. */
  function Next(k: Desk, p: Purpose, e: Event): Desk {
    match e
    case ScheduleLetter(m) =>
      if m in k.letters then k else k.(letters := k.letters[m := Letter(SCHEDULED, false)])
    case Check(d, m) =>
      if d !in k.underWay || k.underWay[d].Some? || m !in k.letters || m in Counted(k) then k
      else if k.blocked || |Counted(k)| >= Limit(p) then
        k.(letters := k.letters[m := k.letters[m].(status := SUPPRESSED)])
      else k.(underWay := k.underWay[d := Some(m)])
    case RecordSent(d, delivered) =>
      if d !in k.underWay || k.underWay[d].None? || k.underWay[d].value !in k.letters then k
      else k.(letters := k.letters[k.underWay[d].value := Letter(if delivered then DELIVERED else SENT, true)],
              underWay := k.underWay[d := None])
    case Drop(d) => if d !in k.underWay then k else k.(underWay := k.underWay[d := None])
    case Report(m, kind, read) =>
      if m !in k.letters || !k.letters[m].out || !WentOut(read) then k
      else
        var st := StatusAfterWebhook(read, kind);
        k.(letters := k.letters[m := k.letters[m].(status := st)], blocked := k.blocked || st.BOUNCED?)
    case Block => k.(blocked := true)
  }

  function After(k: Desk, p: Purpose, events: seq<Event>): Desk {
    if events == [] then k else Next(After(k, p, events[..|events| - 1]), p, events[|events| - 1])
  }

  /** What is out has been counted, unless the lead is blocked: any bounce blocks. */
  ghost predicate BounceBlocks(k: Desk) {
    && (forall m :: m in k.letters && !k.letters[m].out ==>
      !(k.letters[m].status.SENT? || k.letters[m].status.DELIVERED?))
    && (!k.blocked ==> forall m :: m in k.letters && k.letters[m].out ==> m in Counted(k))
  }

  ghost predicate WithinLimit(k: Desk, p: Purpose) {
    |Out(k)| + |Busy(k)| < Limit(p) + |k.underWay|
  }

  lemma BusyIsSome(k: Desk, d: nat)
    requires d in k.underWay
    ensures k.underWay[d].None? ==> |Busy(k)| < |k.underWay|
    ensures |Busy(k.(underWay := k.underWay[d := None]))| <= |Busy(k)|
    ensures k.underWay[d].Some? ==> |Busy(k.(underWay := k.underWay[d := None]))| == |Busy(k)| - 1
  {
    var freed := k.(underWay := k.underWay[d := None]);
    assert Busy(freed) == Busy(k) - {d};
    assert |k.underWay| == |k.underWay.Keys|;
    if k.underWay[d].None? {
      SubsetSize(Busy(k), k.underWay.Keys - {d});
    }
  }

  lemma CheckKeepsLimit(k: Desk, p: Purpose, d: nat, m: nat)
    requires BounceBlocks(k) && WithinLimit(k, p)
    ensures WithinLimit(Next(k, p, Check(d, m)), p)
  {
    var k' := Next(k, p, Check(d, m));
    if k' != k {
      assert |k'.underWay| == |k'.underWay.Keys| == |k.underWay.Keys| == |k.underWay| by {
        assert k'.underWay.Keys == k.underWay.Keys;
      }
      assert Out(k') == Out(k);
      if k'.underWay != k.underWay {
        assert Out(k) == Counted(k);
        BusyIsSome(k, d);
        assert Busy(k') == Busy(k) + {d};
      } else {
        assert Busy(k') == Busy(k);
      }
    }
  }

  lemma RecordKeepsLimit(k: Desk, p: Purpose, d: nat, delivered: bool)
    requires WithinLimit(k, p)
    ensures WithinLimit(Next(k, p, RecordSent(d, delivered)), p)
  {
    var k' := Next(k, p, RecordSent(d, delivered));
    if k' != k {
      assert k'.underWay.Keys == k.underWay.Keys;
      assert |k'.underWay| == |k'.underWay.Keys| && |k.underWay| == |k.underWay.Keys|;
      BusyIsSome(k, d);
      assert Busy(k') == Busy(k.(underWay := k.underWay[d := None]));
      assert Out(k') == Out(k) + {k.underWay[d].value};
    }
  }

  lemma StepKeepsLimit(k: Desk, p: Purpose, e: Event)
    requires BounceBlocks(k) && WithinLimit(k, p)
    ensures BounceBlocks(Next(k, p, e)) && WithinLimit(Next(k, p, e), p) && |Next(k, p, e).underWay| == |k.underWay|
  {
    var k' := Next(k, p, e);
    assert k'.underWay.Keys == k.underWay.Keys;
    assert |k'.underWay| == |k'.underWay.Keys| && |k.underWay| == |k.underWay.Keys|;
    match e {
      case Check(d, m) => CheckKeepsLimit(k, p, d, m);
      case RecordSent(d, delivered) => RecordKeepsLimit(k, p, d, delivered);
      case Drop(d) =>
        if d in k.underWay {
          BusyIsSome(k, d);
          assert Out(k') == Out(k);
        }
      case _ =>
        assert Out(k') == Out(k) && Busy(k') == Busy(k);
    }
  }

  lemma {:induction false} RunKeepsLimit(k: Desk, p: Purpose, events: seq<Event>)
    requires BounceBlocks(k) && WithinLimit(k, p)
    ensures var k' := After(k, p, events);
      BounceBlocks(k') && WithinLimit(k', p) && |k'.underWay| == |k.underWay|
  {
    if events != [] {
      RunKeepsLimit(k, p, events[..|events| - 1]);
      StepKeepsLimit(After(k, p, events[..|events| - 1]), p, events[|events| - 1]);
    }
  }

  /** Nothing has been sent, and no dispatcher is at work. */
  ghost predicate Fresh(k: Desk) {
    && (forall m :: m in k.letters ==> k.letters[m] == Letter(SCHEDULED, false))
    && (forall d :: d in k.underWay ==> k.underWay[d].None?)
  }

  /** Starting with nothing sent, the sent and delivered messages never exceed the limit by more than the
      number of dispatchers less one, whatever is scheduled and reported, and even when a late report turns a
      bounce back into a delivery. */
  lemma LimitHolds(k: Desk, p: Purpose, events: seq<Event>)
    requires Fresh(k) && |k.underWay| > 0
    ensures |Counted(After(k, p, events))| <= Limit(p) + |k.underWay| - 1
  {
    assert Out(k) == {} && Busy(k) == {};
    RunKeepsLimit(k, p, events);
    var k' := After(k, p, events);
    SubsetSize(Counted(k'), Out(k'));
  }

  // ---- The excess is real ----

  lemma {:induction false} AfterAppend(k: Desk, p: Purpose, a: seq<Event>, b: seq<Event>)
    ensures After(k, p, a + b) == After(After(k, p, a), p, b)
  {
    if b == [] {
      assert a + b == a;
    } else {
      assert (a + b)[..|a + b| - 1] == a + b[..|b| - 1];
      AfterAppend(k, p, a, b[..|b| - 1]);
    }
  }

  lemma AfterOne(k: Desk, p: Purpose, e: Event)
    ensures After(k, p, [e]) == Next(k, p, e)
  {
    assert [e][..0] == [];
    assert After(k, p, []) == k;
  }

  lemma AfterTwo(k: Desk, p: Purpose, e: Event, f: Event)
    ensures After(k, p, [e, f]) == Next(Next(k, p, e), p, f)
  {
    AfterOne(k, p, e);
    assert [e, f][..1] == [e];
  }

  /** A new message, and the go-ahead for it. */
  lemma TakeUp(k: Desk, p: Purpose, d: nat) returns (events: seq<Event>, m: nat)
    requires !k.blocked && |Counted(k)| < Limit(p) && d in k.underWay && k.underWay[d].None?
    ensures m !in k.letters
    ensures After(k, p, events) == k.(letters := k.letters[m := Letter(SCHEDULED, false)],
      underWay := k.underWay[d := Some(m)])
  {
    m := UnusedAbove(k.letters.Keys);
    events := [ScheduleLetter(m), Check(d, m)];
    AfterTwo(k, p, events[0], events[1]);
    var k1 := Next(k, p, events[0]);
    assert Counted(k1) == Counted(k);
  }

  /** Dispatcher `d` has the go-ahead for a message that does not count yet. */
  ghost predicate Holds(k: Desk, d: nat) {
    d in k.underWay && k.underWay[d].Some? && k.underWay[d].value in k.letters && k.underWay[d].value !in Counted(k)
  }

  ghost predicate HoldApart(k: Desk, ds: set<nat>) {
    && (forall d :: d in ds ==> Holds(k, d))
    && (forall d, f :: d in ds && f in ds && d != f ==> k.underWay[d] != k.underWay[f])
  }

  lemma RecordOne(k: Desk, p: Purpose, d: nat)
    requires Holds(k, d)
    ensures var k' := Next(k, p, RecordSent(d, false));
      && Counted(k') == Counted(k) + {k.underWay[d].value} && k'.blocked == k.blocked
      && k'.underWay == k.underWay[d := None] && k'.letters.Keys == k.letters.Keys
  {
  }

  /** All of them record their sends. */
  lemma {:induction false} RecordAll(k: Desk, p: Purpose, ds: set<nat>) returns (events: seq<Event>)
    requires HoldApart(k, ds)
    ensures |Counted(After(k, p, events))| == |Counted(k)| + |ds|
    decreases ds
  {
    if ds == {} {
      events := [];
    } else {
      var d :| d in ds;
      var k1 := Next(k, p, RecordSent(d, false));
      RecordOne(k, p, d);
      var rest := RecordAll(k1, p, ds - {d});
      events := [RecordSent(d, false)] + rest;
      AfterOne(k, p, RecordSent(d, false));
      AfterAppend(k, p, [RecordSent(d, false)], rest);
    }
  }

  /** All of them get the go-ahead, each for a message of its own, before anybody records. */
  lemma {:induction false} TakeUpAll(k: Desk, p: Purpose, idle: set<nat>, busy: set<nat>) returns (events: seq<Event>)
    requires !k.blocked && |Counted(k)| < Limit(p) && idle !! busy && HoldApart(k, busy)
    requires forall d :: d in idle ==> d in k.underWay && k.underWay[d].None?
    ensures HoldApart(After(k, p, events), idle + busy) && Counted(After(k, p, events)) == Counted(k)
    decreases idle
  {
    if idle == {} {
      events := [];
      assert idle + busy == busy;
    } else {
      var d :| d in idle;
      var first, m := TakeUp(k, p, d);
      var k1 := After(k, p, first);
      assert Counted(k1) == Counted(k);
      var rest := TakeUpAll(k1, p, idle - {d}, busy + {d});
      events := first + rest;
      AfterAppend(k, p, first, rest);
      assert idle - {d} + (busy + {d}) == idle + busy;
    }
  }

  /** One dispatcher sends as many as the limit leaves room for. */
  lemma {:induction false} SendUpTo(k: Desk, p: Purpose, d: nat, n: nat) returns (events: seq<Event>)
    requires Idle(k) && !k.blocked && d in k.underWay && |Counted(k)| + n <= Limit(p)
    ensures var k' := After(k, p, events);
      Idle(k') && !k'.blocked && k'.underWay.Keys == k.underWay.Keys && |Counted(k')| == |Counted(k)| + n
    decreases n
  {
    if n == 0 {
      events := [];
    } else {
      var first, m := TakeUp(k, p, d);
      var k1 := After(k, p, first);
      assert Counted(k1) == Counted(k) && Holds(k1, d);
      RecordOne(k1, p, d);
      AfterOne(k1, p, RecordSent(d, false));
      AfterAppend(k, p, first, [RecordSent(d, false)]);
      var k2 := Next(k1, p, RecordSent(d, false));
      var rest := SendUpTo(k2, p, d, n - 1);
      events := first + [RecordSent(d, false)] + rest;
      AfterAppend(k, p, first + [RecordSent(d, false)], rest);
    }
  }

  ghost predicate Idle(k: Desk) { forall d :: d in k.underWay ==> k.underWay[d].None? }

  /** The bound is reached: all dispatchers check before any of them records its send. */
  lemma LimitIsExceededByAll(k: Desk, p: Purpose) returns (events: seq<Event>)
    requires Fresh(k) && !k.blocked && |k.underWay| > 0
    ensures |Counted(After(k, p, events))| == Limit(p) + |k.underWay| - 1
  {
    assert Counted(k) == {};
    assert |k.underWay| == |k.underWay.Keys|;
    var d :| d in k.underWay;
    var sends := SendUpTo(k, p, d, Limit(p) - 1);
    var k1 := After(k, p, sends);
    var checks := TakeUpAll(k1, p, k1.underWay.Keys, {});
    var k2 := After(k1, p, checks);
    assert k1.underWay.Keys + {} == k.underWay.Keys;
    var records := RecordAll(k2, p, k.underWay.Keys);
    AfterAppend(k, p, sends, checks);
    AfterAppend(k, p, sends + checks, records);
    events := sends + checks + records;
  }

  // ---- Exactly when the limit holds ----

  ghost predicate AlwaysWithinLimit(k: Desk, p: Purpose) {
    forall events :: |Counted(After(k, p, events))| <= Limit(p)
  }

  /** Nothing can get out. */
  ghost predicate Shut(k: Desk) { Idle(k) && Out(k) == {} && Counted(k) == {} && (k.blocked || |k.underWay| == 0) }

  lemma StaysShut(k: Desk, p: Purpose, e: Event)
    requires Shut(k)
    ensures Shut(Next(k, p, e))
  {
    assert |k.underWay| == 0 ==> k.underWay.Keys == {};
  }

  lemma {:induction false} ShutForEver(k: Desk, p: Purpose, events: seq<Event>)
    requires Shut(k)
    ensures Shut(After(k, p, events))
  {
    if events != [] {
      ShutForEver(k, p, events[..|events| - 1]);
      StaysShut(After(k, p, events[..|events| - 1]), p, events[|events| - 1]);
    }
  }

  /** With nothing sent yet, the limit is never exceeded exactly when the lead is blocked from the start or at
      most one dispatcher is at work. */
  lemma LimitHoldsExactly(k: Desk, p: Purpose)
    requires Fresh(k)
    ensures AlwaysWithinLimit(k, p) <==> k.blocked || |k.underWay| <= 1
  {
    assert Out(k) == {} && Counted(k) == {};
    if k.blocked || |k.underWay| == 0 {
      forall events ensures |Counted(After(k, p, events))| <= Limit(p) { ShutForEver(k, p, events); }
    } else if |k.underWay| == 1 {
      forall events ensures |Counted(After(k, p, events))| <= Limit(p) { LimitHolds(k, p, events); }
    } else {
      var events := LimitIsExceededByAll(k, p);
      assert |Counted(After(k, p, events))| > Limit(p);
    }
  }
}
