/** The retention job (runRetention in apps/api/src/modules/engagement/engagement.service.ts). */
module Retention {
  import opened Engagement

  const PRIVACY_SUFFIX := "@privacy.invalid"

  predicate EndsWith(s: string, suffix: string) {
    |s| >= |suffix| && s[|s| - |suffix|..] == suffix
  }

  predicate Marked(lead: Lead) { EndsWith(lead.email, PRIVACY_SUFFIX) }

  predicate Expired(row: EventRow, now: int) {
    && (row.status.COMPLETED_EVENT? || row.status.CANCELLED_EVENT?)
    && row.endsAt.Some?
    && row.endsAt.value + row.retentionDays * DAY_MS <= now
  }

  predicate EventExpired(crm: Crm, e: nat, now: int) { e in crm.events && Expired(crm.events[e], now) }

  predicate AllExpired(crm: Crm, l: nat, now: int) {
    forall r :: r in crm.registrations && crm.registrations[r].lead == l ==>
      EventExpired(crm, crm.registrations[r].event, now)
  }

  predicate ExpiredFor(crm: Crm, r: nat, l: nat, now: int) {
    r in crm.registrations && crm.registrations[r].lead == l && EventExpired(crm, crm.registrations[r].event, now)
  }

  predicate HasExpired(crm: Crm, l: nat, now: int) {
    exists r :: r in crm.registrations && ExpiredFor(crm, r, l, now)
  }

  /** The leads to anonymise: not anonymised yet, with an expired registration and no other kind. */
  function Selected(crm: Crm, now: int): set<nat> {
    set l | l in crm.leads && !Marked(crm.leads[l]) && HasExpired(crm, l, now) && AllExpired(crm, l, now)
  }

  // ---- Anonymous addresses ----

  lemma {:induction false} DigitsDiffer(n: nat, m: nat)
    requires Digits(n) == Digits(m)
    ensures n == m
  {
    if n >= 10 && m >= 10 {
      var a, b := Digits(n), Digits(m);
      assert a[..|a| - 1] == Digits(n / 10) && b[..|b| - 1] == Digits(m / 10);
      assert a[|a| - 1] == Digit(n % 10) && b[|b| - 1] == Digit(m % 10);
      DigitsDiffer(n / 10, m / 10);
    } else if n >= 10 {
      DigitsNonempty(n / 10);
    } else if m >= 10 {
      DigitsNonempty(m / 10);
    }
  }

  lemma {:induction false} DigitsNonempty(n: nat)
    ensures |Digits(n)| > 0
  {
  }

  /** An anonymous address determines the id it is made from, whatever ids look like. */
  lemma AddressDeterminesId(id: string, other: string)
    requires AnonymousAddress(id) == AnonymousAddress(other)
    ensures id == other
  {
    var a, b := AnonymousAddress(id), AnonymousAddress(other);
    assert |a| == 8 + |id| + 16 && |b| == 8 + |other| + 16;
    assert id == a[8..|a| - 16] && other == b[8..|b| - 16];
  }

  lemma AnonymousEmailsDiffer(l: nat, k: nat)
    requires AnonymousEmail(l) == AnonymousEmail(k)
    ensures l == k
  {
    AddressDeterminesId(Digits(l), Digits(k));
    DigitsDiffer(l, k);
  }

  lemma AnonymousIsMarked(l: nat, suppressed: bool)
    ensures Marked(Lead(AnonymousEmail(l), suppressed))
  {
    var a := AnonymousEmail(l);
    assert a[|a| - 16..] == PRIVACY_SUFFIX;
  }

  // ---- Who is selected, and when ----

  /** When the data of an event may no longer be kept: the retention days after the end of one that is over. */
  function Deadline(row: EventRow): Option<int> {
    if (row.status.COMPLETED_EVENT? || row.status.CANCELLED_EVENT?) && row.endsAt.Some?
    then Some(row.endsAt.value + row.retentionDays * 86_400_000) else None
  }

  predicate PastDeadline(crm: Crm, r: nat, now: int) {
    && r in crm.registrations && crm.registrations[r].event in crm.events
    && var deadline := Deadline(crm.events[crm.registrations[r].event]);
    && deadline.Some? && deadline.value <= now
  }

  /** A lead is selected exactly from the latest deadline of its registrations on: it is not anonymised yet, it has
      registrations, and the deadlines of all of them have come. */
  lemma SelectedExactly(crm: Crm, now: int, l: nat)
    ensures l in Selected(crm, now) <==>
      && l in crm.leads && !Marked(crm.leads[l])
      && (exists r :: r in crm.registrations && crm.registrations[r].lead == l)
      && (forall r :: r in crm.registrations && crm.registrations[r].lead == l ==> PastDeadline(crm, r, now))
  {
    assert forall r :: r in crm.registrations ==>
      (PastDeadline(crm, r, now) <==> EventExpired(crm, crm.registrations[r].event, now));
    if r :| r in crm.registrations && crm.registrations[r].lead == l && AllExpired(crm, l, now) {
      assert ExpiredFor(crm, r, l, now);
    }
  }

  // ---- Monotone and idempotent ----

  /** On the same data, a later run selects at least as many leads. */
  lemma SelectionIsMonotone(crm: Crm, now: int, later: int)
    requires now <= later
    ensures Selected(crm, now) <= Selected(crm, later)
  {
    forall l | l in Selected(crm, now) ensures l in Selected(crm, later) {
      var r :| r in crm.registrations && ExpiredFor(crm, r, l, now);
      assert EventExpired(crm, crm.registrations[r].event, later);
      forall q | q in crm.registrations && crm.registrations[q].lead == l
        ensures EventExpired(crm, crm.registrations[q].event, later)
      {
        assert EventExpired(crm, crm.registrations[q].event, now);
      }
    }
  }

  /** Nobody else holds the anonymous address of a selected lead. */
  ghost predicate AddressesFree(crm: Crm, ls: set<nat>) {
    forall l, k :: l in ls && k in crm.leads && k != l ==> crm.leads[k].email != AnonymousEmail(l)
  }

  predicate BelongsTo(crm: Crm, r: nat, ls: set<nat>) {
    r in crm.registrations && crm.registrations[r].lead in ls
  }

  /** `after` is `before` with exactly the leads of `ls` erased. */
  ghost predicate Erased(before: State, after: State, ls: set<nat>) {
    ErasedRows(before.crm, after.crm, ls) && ErasedMail(before, after, ls)
  }

  /** Leads, consents and suppressions. */
  ghost predicate ErasedRows(crm: Crm, crm': Crm, ls: set<nat>) {
    && crm'.leads.Keys == crm.leads.Keys
    && (forall l :: l in crm.leads ==>
          crm'.leads[l] == if l in ls then Lead("deleted+" + Digits(l) + "@privacy.invalid", true) else crm.leads[l])
    && (forall x :: x in crm'.consents <==> x in crm.consents && x.lead !in ls)
    && (forall x :: x in crm'.suppressions <==> x in crm.suppressions && x.lead !in ls)
    && crm'.events == crm.events && crm'.registrations == crm.registrations
    && crm'.meetings == crm.meetings && crm'.slots == crm.slots && crm'.requests == crm.requests
  }

  /** Messages, links and enrichments. */
  ghost predicate ErasedMail(before: State, after: State, ls: set<nat>) {
    var c, c' := before.cadence, after.cadence;
    && (forall m :: m in c'.messages <==> m in c.messages && c.messages[m].lead !in ls)
    && (forall m :: m in c'.messages ==> c'.messages[m] == c.messages[m])
    && (forall t :: t in c'.tokens <==> t in c.tokens && !BelongsTo(before.crm, c.tokens[t].registration, ls))
    && (forall t :: t in c'.tokens ==> c'.tokens[t] == c.tokens[t])
    && (forall r :: r in c'.enriched <==> r in c.enriched && !BelongsTo(before.crm, r, ls))
    && c'.actions == c.actions && c'.enrolled == c.enrolled && c'.emails == c.emails
    && c'.receipts == c.receipts && c'.dispatchers == c.dispatchers
  }

  /** Expiry looks at registrations and events only. */
  lemma SameRowsSameExpiry(crm: Crm, crm': Crm, l: nat, now: int)
    requires crm'.registrations == crm.registrations && crm'.events == crm.events
    ensures HasExpired(crm', l, now) <==> HasExpired(crm, l, now)
    ensures AllExpired(crm', l, now) <==> AllExpired(crm, l, now)
  {
    assert forall e :: EventExpired(crm', e, now) <==> EventExpired(crm, e, now);
    assert forall r :: r in crm.registrations ==> crm'.registrations[r] == crm.registrations[r];
  }

  /** A second run at the same time finds nobody. */
  lemma SecondRunSelectsNobody(before: State, after: State, now: int)
    requires Erased(before, after, Selected(before.crm, now))
    ensures Selected(after.crm, now) == {}
  {
    forall l | l in after.crm.leads ensures l !in Selected(after.crm, now) {
      AnonymousIsMarked(l, true);
      SameRowsSameExpiry(before.crm, after.crm, l, now);
    }
  }

  // ---- The job ----

  lemma EraseOne(before: State, s: State, done: set<nat>, l: nat)
    requires Erased(before, s, done) && l in s.crm.leads && l !in done
    requires !AddressTaken(s, l)
    ensures Erased(before, DeleteLeadData(s, l), done + {l})
  {
    EraseOneRow(before, s, done, l);
    EraseOneMail(before, s, done, l);
  }

  lemma EraseOneRow(before: State, s: State, done: set<nat>, l: nat)
    requires ErasedRows(before.crm, s.crm, done) && l in s.crm.leads && l !in done && !AddressTaken(s, l)
    ensures ErasedRows(before.crm, DeleteLeadData(s, l).crm, done + {l})
  {
  }

  lemma EraseOneMail(before: State, s: State, done: set<nat>, l: nat)
    requires ErasedMail(before, s, done) && s.crm.registrations == before.crm.registrations
    requires l in s.crm.leads && !AddressTaken(s, l)
    ensures ErasedMail(before, DeleteLeadData(s, l), done + {l})
  {
    var more := done + {l};
    assert forall r :: BelongsTo(before.crm, r, more) <==>
      BelongsTo(before.crm, r, done) || r in RegistrationsOf(s.crm, l);
  }

  /** Somebody holds the address that `l` would get. */
  ghost predicate AddressTaken(s: State, l: nat) {
    exists k :: k in s.crm.leads && k != l && s.crm.leads[k].email == AnonymousEmail(l)
  }

  lemma TakenAsBefore(before: State, s: State, done: set<nat>, ls: set<nat>, l: nat)
    requires Erased(before, s, done) && done <= ls && l in ls - done
    requires forall k :: k in ls ==> k in before.crm.leads && !Marked(before.crm.leads[k])
    ensures AddressTaken(s, l) <==> AddressTaken(before, l)
  {
    AnonymousIsMarked(l, true);
    forall k | k in s.crm.leads && k != l
      ensures s.crm.leads[k].email == AnonymousEmail(l) <==> before.crm.leads[k].email == AnonymousEmail(l)
    {
      if k in done {
        if AnonymousEmail(k) == AnonymousEmail(l) { AnonymousEmailsDiffer(k, l); }
      }
    }
  }

  class RetentionJob {
    var db: State

    constructor (db: State)
      ensures this.db == db
    {
      this.db := db;
    }

    /** Walk the expired events and their registrations, collecting leads in a set. */
    method CollectLeads(now: int) returns (leadIds: set<nat>)
      requires forall r :: r in db.crm.registrations ==> db.crm.registrations[r].lead in db.crm.leads
      ensures leadIds == Selected(db.crm, now)
    {
      leadIds := {};
      var events := db.crm.events.Keys;
      while events != {}
        invariant events <= db.crm.events.Keys
        invariant leadIds <= Selected(db.crm, now)
        invariant forall l, r ::
          (l in Selected(db.crm, now) && r in db.crm.registrations && db.crm.registrations[r].lead == l
           && db.crm.registrations[r].event in db.crm.events.Keys - events) ==> l in leadIds
        decreases events
      {
        var e :| e in events;
        if Expired(db.crm.events[e], now) {
          var found := CollectFrom(e, now);
          leadIds := leadIds + found;
        } else {
          forall l, r | l in Selected(db.crm, now) && r in db.crm.registrations && db.crm.registrations[r].lead == l
            ensures db.crm.registrations[r].event != e
          {
            assert EventExpired(db.crm, db.crm.registrations[r].event, now);
          }
        }
        events := events - {e};
      }
      forall l | l in Selected(db.crm, now) ensures l in leadIds {
        var r :| r in db.crm.registrations && ExpiredFor(db.crm, r, l, now);
      }
    }

    /** The leads of one expired event that have nothing but expired registrations. */
    method CollectFrom(e: nat, now: int) returns (found: set<nat>)
      requires EventExpired(db.crm, e, now)
      requires forall r :: r in db.crm.registrations ==> db.crm.registrations[r].lead in db.crm.leads
      ensures found <= Selected(db.crm, now)
      ensures forall l, r ::
        (l in Selected(db.crm, now) && r in db.crm.registrations && db.crm.registrations[r].lead == l
         && db.crm.registrations[r].event == e) ==> l in found
    {
      found := {};
      var rows := set r | r in db.crm.registrations && db.crm.registrations[r].event == e;
      ghost var all := rows;
      while rows != {}
        invariant rows <= all && found <= Selected(db.crm, now)
        invariant forall l, r ::
          (l in Selected(db.crm, now) && r in all - rows && db.crm.registrations[r].lead == l) ==> l in found
        decreases rows
      {
        var r :| r in rows;
        var l := db.crm.registrations[r].lead;
        if AllExpired(db.crm, l, now) && !Marked(db.crm.leads[l]) {
          assert HasExpired(db.crm, l, now);
          found := found + {l};
        }
        rows := rows - {r};
      }
    }

    /** The erasing transaction; it fails on the unique address index. */
    method EraseOrFail(l: nat) returns (ok: bool)
      requires l in db.crm.leads
      modifies this
      ensures ok <==> !AddressTaken(old(db), l)
      ensures db == if ok then DeleteLeadData(old(db), l) else old(db)
    {
      if exists k :: k in db.crm.leads && k != l && db.crm.leads[k].email == AnonymousEmail(l) {
        return false;
      }
      db := DeleteLeadData(db, l);
      return true;
    }

    /** The run succeeds exactly when no selected lead's anonymous address is taken, and then erases exactly
        the selected leads. Otherwise it has erased exactly some of them, and stops at one whose address is
        taken. */
    method RunRetention(now: int) returns (anonymized: Option<nat>, ghost done: set<nat>)
      requires forall r :: r in db.crm.registrations ==> db.crm.registrations[r].lead in db.crm.leads
      modifies this
      ensures anonymized.Some? <==> AddressesFree(old(db).crm, Selected(old(db).crm, now))
      ensures anonymized.Some? ==>
        anonymized.value == |Selected(old(db).crm, now)| && done == Selected(old(db).crm, now)
      ensures done <= Selected(old(db).crm, now) && Erased(old(db), db, done)
      ensures anonymized.None? ==> exists l :: l in Selected(old(db).crm, now) - done && AddressTaken(old(db), l)
    {
      var leadIds := CollectLeads(now);
      ghost var before := db;
      SelectedAreUnmarked(before.crm, now);
      FreeMeansNoneTaken(before, leadIds);
      var ok;
      ok, done := EraseAll(leadIds);
      anonymized := if ok then Some(|leadIds|) else None;
    }

    method EraseAll(leadIds: set<nat>) returns (ok: bool, ghost done: set<nat>)
      requires forall k :: k in leadIds ==> k in db.crm.leads && !Marked(db.crm.leads[k])
      modifies this
      ensures ok <==> forall l :: l in leadIds ==> !AddressTaken(old(db), l)
      ensures done <= leadIds && Erased(old(db), db, done) && (ok ==> done == leadIds)
      ensures !ok ==> exists l :: l in leadIds - done && AddressTaken(old(db), l)
    {
      ghost var before := db;
      var pending := leadIds;
      done := {};
      while pending != {}
        invariant done + pending == leadIds && done !! pending
        invariant Erased(before, db, done)
        invariant forall l :: l in done ==> !AddressTaken(before, l)
        decreases pending
      {
        var l :| l in pending;
        TakenAsBefore(before, db, done, leadIds, l);
        ghost var earlier := db;
        ok := EraseOrFail(l);
        if !ok {
          return;
        }
        EraseOne(before, earlier, done, l);
        pending := pending - {l};
        done := done + {l};
      }
      assert done == leadIds;
      ok := true;
    }
  }

  lemma SelectedAreUnmarked(crm: Crm, now: int)
    ensures forall k :: k in Selected(crm, now) ==> k in crm.leads && !Marked(crm.leads[k])
  {
  }

  lemma FreeMeansNoneTaken(s: State, ls: set<nat>)
    ensures AddressesFree(s.crm, ls) <==> forall l :: l in ls ==> !AddressTaken(s, l)
  {
    if forall l :: l in ls ==> !AddressTaken(s, l) {
      forall l, k | l in ls && k in s.crm.leads && k != l ensures s.crm.leads[k].email != AnonymousEmail(l) {
        assert !AddressTaken(s, l);
      }
    }
  }
}
