/** Routing of lead enrichment deliveries
    (apps/execution-worker/src/enrichment/lead-enrichment-consumer.ts). */
module LeadEnrichmentConsumer {
  import opened ExecutionProtocol

  /** How handling a delivery went: unparsable, processed, or failed. */
  datatype Handling = Invalid | Succeeded | Failed(retryable: bool)

  datatype Disposition =
    | Acknowledged
    | Republished(attempt: nat, ttlMs: nat)
    | Buried
    | PutBack

  /** The disposition of one delivery; `publishes` says whether the channel accepts a publication. */
  function Route(h: Handling, header: Header, publishes: bool): (d: Disposition)
    ensures d.Republished? ==>
      1 <= d.attempt <= 3 && d.ttlMs == if d.attempt == 1 then 10_000 else if d.attempt == 2 then 60_000 else 300_000
  {
    var attempt := RetryAttempt(header);
    match h
    case Invalid => if publishes then Buried else PutBack
    case Succeeded => Acknowledged
    case Failed(retryable) =>
      if !publishes then PutBack
      else if Retries(retryable, attempt) then Republished(attempt + 1, RETRY_TTLS_MS[attempt])
      else Buried
  }

  /** What happens to one command over its deliveries: it comes back with its new header after a
      republication, and unchanged when it was put back. */
  datatype Journey = Journey(republications: seq<nat>, delayMs: nat, end: Disposition)

  function Travel(header: Header, handlings: seq<(Handling, bool)>): Journey
    decreases |handlings|
  {
    if handlings == [] then Journey([], 0, PutBack)
    else
      match Route(handlings[0].0, header, handlings[0].1)
      case Republished(attempt, ttl) =>
        var rest := Travel(Integer(attempt), handlings[1..]);
        Journey([attempt] + rest.republications, ttl + rest.delayMs, rest.end)
      case PutBack => Travel(header, handlings[1..])
      case d => Journey([], 0, d)
  }

  ghost predicate CountsUpFrom(first: nat, attempts: seq<nat>) {
    forall i :: 0 <= i < |attempts| ==> attempts[i] == first + 1 + i && attempts[i] <= MAX_RETRY_ATTEMPTS
  }

  /** The waiting time of the retry queues from an attempt on. */
  function WaitFrom(attempt: nat): nat
    decreases |RETRY_TTLS_MS| - attempt
  {
    if attempt >= |RETRY_TTLS_MS| then 0 else RETRY_TTLS_MS[attempt] + WaitFrom(attempt + 1)
  }

  lemma TotalWait(attempt: nat)
    ensures WaitFrom(attempt) <= WaitFrom(0) == 370_000
  {
    assert WaitFrom(3) == 0;
    assert WaitFrom(2) == 300_000;
    assert WaitFrom(1) == 360_000;
    assert WaitFrom(0) == 370_000;
  }

  lemma CountsOn(first: nat, rest: seq<nat>)
    requires first < MAX_RETRY_ATTEMPTS && CountsUpFrom(first + 1, rest)
    ensures CountsUpFrom(first, [first + 1] + rest)
  {
    var all := [first + 1] + rest;
    forall i | 0 <= i < |all| ensures all[i] == first + 1 + i && all[i] <= MAX_RETRY_ATTEMPTS {
      if i == 0 {
        assert all[0] == first + 1;
      } else {
        assert all[i] == rest[i - 1];
      }
    }
    assert CountsUpFrom(first, all);
  }

  /** Republications carry the headers attempt+1, attempt+2, ... in order and stop at three, whether the header of the
      delivery is a number or text, so a fresh command is republished at most three times and waits at most 370 seconds
      in retry queues. */
  lemma {:induction false} RetriesAreBounded(header: Header, handlings: seq<(Handling, bool)>)
    ensures CountsUpFrom(RetryAttempt(header), Travel(header, handlings).republications)
    ensures forall n: nat :: header == Integer(n) || header == Text(true, n) ==>
      CountsUpFrom(n, Travel(header, handlings).republications)
    ensures Travel(header, handlings).delayMs <= WaitFrom(RetryAttempt(header)) <= 370_000
    decreases |handlings|
  {
    TotalWait(RetryAttempt(header));
    if handlings != [] {
      match Route(handlings[0].0, header, handlings[0].1) {
        case Republished(attempt, _) =>
          RetriesAreBounded(Integer(attempt), handlings[1..]);
          CountsOn(RetryAttempt(header), Travel(Integer(attempt), handlings[1..]).republications);
        case PutBack => RetriesAreBounded(header, handlings[1..]);
        case _ =>
      }
    }
  }

  /** A delivery that is dead-lettered: it failed, and could not be retried or had used up its retries. */
  predicate GivenUp(handling: (Handling, bool), attempt: nat) {
    handling.1 && handling.0.Failed? && (handling.0.retryable ==> attempt >= MAX_RETRY_ATTEMPTS)
  }

  /** The deliveries at which the channel accepts a publication. */
  function PublishedIn(handlings: seq<(Handling, bool)>): nat {
    if handlings == [] then 0 else (if handlings[0].1 then 1 else 0) + PublishedIn(handlings[1..])
  }

  /** A command leaves the queue only processed or dead-lettered, and is dead-lettered only when it cannot be parsed or
      for a failure that cannot be retried any more. While it is still in a queue, nothing has succeeded, and whenever
      the channel could publish, it was for a retryable failure, and the command has been republished. */
  lemma {:induction false} JourneysEndAccountedFor(header: Header, handlings: seq<(Handling, bool)>)
    ensures var journey := Travel(header, handlings);
      && !journey.end.Republished?
      && (journey.end.PutBack? ==>
            && |journey.republications| == PublishedIn(handlings)
            && forall i :: 0 <= i < |handlings| ==>
                 !handlings[i].0.Succeeded? && (handlings[i].1 ==> handlings[i].0 == Failed(true)))
      && (journey.end.Acknowledged? ==> exists i :: 0 <= i < |handlings| && handlings[i].0.Succeeded?)
      && (journey.end.Buried? ==>
            exists i :: 0 <= i < |handlings|
              && (handlings[i] == (Handling.Invalid, true)
                  || GivenUp(handlings[i], RetryAttempt(header) + |journey.republications|)))
    decreases |handlings|
  {
    if handlings != [] {
      var rest := handlings[1..];
      match Route(handlings[0].0, header, handlings[0].1)
      case Republished(attempt, _) =>
        JourneysEndAccountedFor(Integer(attempt), rest);
        assert forall i :: 0 <= i < |rest| ==> rest[i] == handlings[i + 1];
      case PutBack =>
        JourneysEndAccountedFor(header, rest);
        assert forall i :: 0 <= i < |rest| ==> rest[i] == handlings[i + 1];
      case Buried => assert handlings[0] == (Handling.Invalid, true) || GivenUp(handlings[0], RetryAttempt(header));
      case Acknowledged => assert handlings[0].0.Succeeded?;
    }
  }
}
