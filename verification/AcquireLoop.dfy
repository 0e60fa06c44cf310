/** The retry loop of one `acquireProcessLock` call, against everything the file system can answer. */
module AcquireLoop {
  import opened Options

  /** One round: the rename succeeds, fails for good, or fails and the recovery reports. */
  datatype Round = Published | Missing | Recovered | Held | Broken

  datatype Verdict = Verdict(acquired: bool, attempts: nat)

  function Clip(retries: int): nat {
    if retries > 0 then retries else 0
  }

  /** What the loop carries from round to round: the waits still allowed, the recoveries since the last
      wait, and whether the directory was missing in the round before. */
  datatype Tries = Tries(retries: int, recoveries: nat, missing: bool)

  function Start(retries: int): Tries {
    Tries(retries, 0, false)
  }

  /** The counters after a round, or `None` when the loop ends with it. */
  function AfterRound(t: Tries, round: Round): Option<Tries> {
    match round
    case Missing => if t.missing then None else Some(t.(missing := true))
    case Recovered => if t.recoveries + 1 > 32 then None else Some(Tries(t.retries, t.recoveries + 1, false))
    case Held => if t.retries <= 0 then None else Some(Tries(t.retries - 1, 0, false))
    case _ => None
  }

  /** The call's outcome from round `k` on. */
  function Acquire(rounds: nat -> Round, k: nat, t: Tries): Verdict
    requires t.recoveries <= 32
    decreases Clip(t.retries), 32 - t.recoveries, !t.missing
  {
    var next := AfterRound(t, rounds(k));
    if next.None? then Verdict(rounds(k) == Published, k + 1) else Acquire(rounds, k + 1, next.value)
  }

  /** However the directory keeps changing, a call tries at most 66 times per allowed wait. */
  lemma {:induction false} AttemptsAreBounded(rounds: nat -> Round, k: nat, t: Tries)
    requires t.recoveries <= 32
    ensures Acquire(rounds, k, t).attempts
         <= k + 66 * Clip(t.retries) + 2 * (32 - t.recoveries) + (if t.missing then 1 else 2)
    decreases Clip(t.retries), 32 - t.recoveries, !t.missing
  {
    var next := AfterRound(t, rounds(k));
    if next.Some? {
      AttemptsAreBounded(rounds, k + 1, next.value);
    }
  }

  /** The call acquires exactly when its last round published, and no earlier round did or broke. */
  lemma {:induction false} AcquiredExactly(rounds: nat -> Round, k: nat, t: Tries)
    requires t.recoveries <= 32
    ensures var v := Acquire(rounds, k, t);
            && v.attempts > k
            && (v.acquired <==> rounds(v.attempts - 1) == Published)
            && (forall i :: k <= i < v.attempts - 1 ==> rounds(i) != Published && rounds(i) != Broken)
    decreases Clip(t.retries), 32 - t.recoveries, !t.missing
  {
    var next := AfterRound(t, rounds(k));
    if next.Some? {
      AcquiredExactly(rounds, k + 1, next.value);
    }
  }

  // When the loop ends, read from its rounds alone.

  function HeldBefore(rounds: nat -> Round, k: nat): nat {
    if k == 0 then 0 else HeldBefore(rounds, k - 1) + if rounds(k - 1) == Held then 1 else 0
  }

  /** Recoveries before round `k`, counted from the last time the lock was held. */
  function RecoveredBefore(rounds: nat -> Round, k: nat): nat {
    if k == 0 || rounds(k - 1) == Held then 0
    else RecoveredBefore(rounds, k - 1) + if rounds(k - 1) == Recovered then 1 else 0
  }

  /** The call is over with round `k`: the lock is taken, something broke, the directory is missing a second time in a
      row, it has been recovered 33 times since it was last held, or it is held with no wait left. */
  predicate EndsWith(rounds: nat -> Round, retries: int, k: nat) {
    match rounds(k)
    case Missing => k > 0 && rounds(k - 1) == Missing
    case Recovered => RecoveredBefore(rounds, k) == 32
    case Held => HeldBefore(rounds, k) == Clip(retries)
    case _ => true
  }

  /** The counters say what the rounds before have been. */
  predicate Tells(rounds: nat -> Round, retries: int, k: nat, t: Tries) {
    && Clip(t.retries) == Clip(retries) - HeldBefore(rounds, k) && (t.retries == retries || t.retries >= 0)
    && t.recoveries == RecoveredBefore(rounds, k) && t.recoveries <= 32
    && (t.missing <==> k > 0 && rounds(k - 1) == Missing)
  }

  lemma {:induction false} EndsExactlyFrom(rounds: nat -> Round, retries: int, k: nat, t: Tries)
    requires Tells(rounds, retries, k, t)
    ensures var v := Acquire(rounds, k, t);
            && v.attempts > k && EndsWith(rounds, retries, v.attempts - 1)
            && forall i :: k <= i < v.attempts - 1 ==> !EndsWith(rounds, retries, i)
    decreases Clip(t.retries), 32 - t.recoveries, !t.missing
  {
    var next := AfterRound(t, rounds(k));
    if next.Some? {
      EndsExactlyFrom(rounds, retries, k + 1, next.value);
    }
  }

  /** The call ends with the first round that ends it, and has the lock exactly when that round published. */
  lemma {:induction false} EndsExactly(rounds: nat -> Round, retries: int)
    ensures var v := Acquire(rounds, 0, Start(retries));
            && v.attempts > 0 && EndsWith(rounds, retries, v.attempts - 1)
            && (forall i :: 0 <= i < v.attempts - 1 ==> !EndsWith(rounds, retries, i))
            && (v.acquired <==> rounds(v.attempts - 1) == Published)
  {
    EndsExactlyFrom(rounds, retries, 0, Start(retries));
    AcquiredExactly(rounds, 0, Start(retries));
  }

  /** The counters after some rounds, none of which ended the loop. */
  function Played(t: Tries, rounds: seq<Round>): Option<Tries> {
    if rounds == [] then Some(t)
    else
      var before := Played(t, rounds[..|rounds| - 1]);
      if before.None? then None else AfterRound(before.value, rounds[|rounds| - 1])
  }

  lemma {:induction false} PlayedSnoc(t: Tries, rounds: seq<Round>, round: Round)
    ensures Played(t, rounds + [round])
            == if Played(t, rounds).None? then None else AfterRound(Played(t, rounds).value, round)
  {
    assert (rounds + [round])[..|rounds|] == rounds;
  }

  lemma {:induction false} PlayedCounts(t: Tries, rounds: seq<Round>)
    requires t.recoveries <= 32
    ensures Played(t, rounds).Some? ==> Played(t, rounds).value.recoveries <= 32
  {
    if rounds != [] {
      PlayedCounts(t, rounds[..|rounds| - 1]);
    }
  }

  /** The rounds begin as listed. */
  ghost predicate Begins(rounds: nat -> Round, listed: seq<Round>) {
    forall i :: 0 <= i < |listed| ==> rounds(i) == listed[i]
  }

  /** Where the loop has come after rounds that did not end it. */
  lemma {:induction false} PlayedIsAcquire(rounds: nat -> Round, t: Tries, listed: seq<Round>)
    requires t.recoveries <= 32 && Begins(rounds, listed) && Played(t, listed).Some?
    ensures Played(t, listed).value.recoveries <= 32
    ensures Acquire(rounds, 0, t) == Acquire(rounds, |listed|, Played(t, listed).value)
  {
    PlayedCounts(t, listed);
    if listed != [] {
      var init := listed[..|listed| - 1];
      PlayedIsAcquire(rounds, t, init);
    }
  }

  method AcquireProcessLock(initialRetries: int, rounds: nat -> Round) returns (acquired: bool, attempts: nat)
    ensures Verdict(acquired, attempts) == Acquire(rounds, 0, Start(initialRetries))
    ensures attempts <= 66 * (Clip(initialRetries) + 1)
    ensures attempts > 0 && (acquired <==> rounds(attempts - 1) == Published)
    ensures EndsWith(rounds, initialRetries, attempts - 1)
    ensures forall i :: 0 <= i < attempts - 1 ==> !EndsWith(rounds, initialRetries, i)
  {
    EndsExactly(rounds, initialRetries);
    AttemptsAreBounded(rounds, 0, Start(initialRetries));
    var retries, recoveries, missing := initialRetries, 0, false;
    attempts := 0;
    while true
      invariant 0 <= recoveries <= 32
      invariant Acquire(rounds, attempts, Tries(retries, recoveries, missing))
              == Acquire(rounds, 0, Start(initialRetries))
      decreases Clip(retries), 32 - recoveries, !missing
    {
      var round := rounds(attempts);
      attempts := attempts + 1;
      match round
      case Published => return true, attempts;
      case Broken => return false, attempts;
      case Missing =>
        if missing {
          return false, attempts;
        }
        missing := true;
      case Recovered =>
        missing := false;
        recoveries := recoveries + 1;
        if recoveries > 32 {
          return false, attempts;
        }
      case Held =>
        missing := false;
        if retries <= 0 {
          return false, attempts;
        }
        retries := retries - 1;
        recoveries := 0;
    }
  }
}
