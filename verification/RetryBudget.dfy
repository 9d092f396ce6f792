/** The two retry budgets of MessagesClient.create, session-runner/devproof_runner/client.py.  Time is
    in milliseconds; each attempt brings the clock reading taken after it failed. */
module RetryBudget {
  import opened Wrappers

  const MAX_ATTEMPTS: nat := 4
  const PATIENT_WINDOW: nat := 1_800_000

  /** How an attempt ends.  Patient: a 503, or a failure to connect.  Other retryable failures spend
      the bounded budget; the rest are raised at once. */
  datatype Attempt = Reply | Patient(now: int) | Bounded(now: int) | Fatal(now: int)

  datatype Outcome = Answered | RaisedFatal | RaisedBounded | RaisedPatient | Waiting

  function BoundedCount(attempts: seq<Attempt>): nat {
    if attempts == [] then 0
    else BoundedCount(attempts[..|attempts|-1]) + if attempts[|attempts|-1].Bounded? then 1 else 0
  }

  /** Whether an attempt, the last of those made, ends the call. */
  predicate Ends(attempts: seq<Attempt>, entry: int)
    requires attempts != []
  {
    match attempts[|attempts|-1]
    case Reply => true
    case Fatal(_) => true
    case Bounded(_) => BoundedCount(attempts) >= MAX_ATTEMPTS
    case Patient(now) => now >= entry + PATIENT_WINDOW
  }

  /** None of the attempts has ended the call. */
  predicate Ongoing(attempts: seq<Attempt>, entry: int)
    decreases |attempts|
  {
    attempts == [] || (Ongoing(attempts[..|attempts|-1], entry) && !Ends(attempts, entry))
  }

  // ---------------------------------------------------------------------------------------
  // When a call still waits

  /** Fewer than four bounded failures, every patient one before the deadline, nothing final. */
  predicate Waits(attempts: seq<Attempt>, entry: int) {
    && BoundedCount(attempts) < MAX_ATTEMPTS
    && forall a <- attempts :: !a.Reply? && !a.Fatal? && (a.Patient? ==> a.now < entry + PATIENT_WINDOW)
  }

  /** None of the attempts has ended the call exactly when it waits: neither budget looks at the
      other's failures. */
  lemma {:induction false} OngoingIff(attempts: seq<Attempt>, entry: int)
    ensures Ongoing(attempts, entry) <==> Waits(attempts, entry)
  {
    if attempts != [] {
      var rest, last := attempts[..|attempts|-1], attempts[|attempts|-1];
      OngoingIff(rest, entry);
      assert attempts == rest + [last];
    }
  }

  /** The call waits up to attempt `k`, and that one is final. */
  predicate StopsAt(script: seq<Attempt>, entry: int, k: nat) {
    && k < |script| && Waits(script[..k], entry)
    && match script[k]
       case Reply => true
       case Fatal(_) => true
       case Bounded(_) => BoundedCount(script[..k]) == MAX_ATTEMPTS - 1
       case Patient(now) => now >= entry + PATIENT_WINDOW
  }

  lemma StopsIff(script: seq<Attempt>, entry: int, k: nat)
    requires k < |script|
    ensures StopsAt(script, entry, k) <==> Ongoing(script[..k], entry) && Ends(script[..k+1], entry)
  {
    OngoingIff(script[..k], entry);
    assert script[..k+1][..k] == script[..k];
  }

  /** There is one such attempt at most. */
  lemma StopsOnce(script: seq<Attempt>, entry: int, j: nat, k: nat)
    requires StopsAt(script, entry, j) && StopsAt(script, entry, k)
    ensures j == k
  {
    if j < k { WaitsBefore(script, entry, j, k); }
    if k < j { WaitsBefore(script, entry, k, j); }
  }

  lemma WaitsBefore(script: seq<Attempt>, entry: int, j: nat, k: nat)
    requires j < k <= |script| && Waits(script[..k], entry)
    ensures !StopsAt(script, entry, j)
  {
    OngoingIff(script[..k], entry);
    OngoingPrefix(script, entry, j + 1, k);
    StopsIff(script, entry, j);
  }

  lemma {:induction false} OngoingPrefix(script: seq<Attempt>, entry: int, j: nat, k: nat)
    requires 1 <= j <= k <= |script| && Ongoing(script[..k], entry)
    ensures !Ends(script[..j], entry)
    decreases k
  {
    if j < k {
      assert script[..k][..k-1] == script[..k-1];
      OngoingPrefix(script, entry, j, k - 1);
    }
  }

  // ---------------------------------------------------------------------------------------
  // The call

  function How(a: Attempt): Outcome {
    match a case Reply => Answered case Fatal(_) => RaisedFatal case Bounded(_) => RaisedBounded case Patient(_) => RaisedPatient
  }

  /** The number of attempts made, and how the call ends; Waiting when the script of failures runs
      out.  It raises on a patient failure exactly at or after the deadline, and on a bounded one
      exactly at the fourth. */
  method Create(entry: int, script: seq<Attempt>) returns (made: nat, outcome: Outcome)
    ensures made <= |script|
    ensures outcome == Waiting <==> Waits(script, entry)
    ensures outcome == Waiting ==> made == |script|
    ensures outcome != Waiting ==> made > 0 && StopsAt(script, entry, made - 1) && outcome == How(script[made-1])
    ensures forall k: nat :: StopsAt(script, entry, k) ==> made == k + 1
  {
    hide StopsAt, Waits, Ongoing, Ends;
    NoneMade(entry);
    made := 0;
    var boundedAttempts := 0;
    var deadline := entry + PATIENT_WINDOW;
    outcome := Waiting;
    while made < |script| && outcome == Waiting
      invariant made <= |script| && boundedAttempts == BoundedCount(script[..made])
      invariant outcome == Waiting ==> boundedAttempts < MAX_ATTEMPTS && Ongoing(script[..made], entry)
      invariant outcome != Waiting ==>
        made > 0 && Ongoing(script[..made-1], entry) && Ends(script[..made], entry) && outcome == How(script[made-1])
    {
      var a := script[made];
      NextMade(script, entry, made);
      made := made + 1;
      match a {
        case Reply => outcome := Answered;
        case Fatal(_) => outcome := RaisedFatal;
        case Patient(now) =>
          if now >= deadline {
            outcome := RaisedPatient;
          }
        case Bounded(_) =>
          boundedAttempts := boundedAttempts + 1;
          if boundedAttempts >= MAX_ATTEMPTS {
            outcome := RaisedBounded;
          }
      }
    }
    if outcome == Waiting {
      assert script[..|script|] == script;
      StillWaiting(script, entry);
    } else {
      Stopped(script, entry, made - 1);
    }
  }

  lemma NoneMade(entry: int)
    ensures Ongoing([], entry)
  {
  }

  /** One more attempt: how the count grows, and whether it ends the call. */
  lemma NextMade(script: seq<Attempt>, entry: int, made: nat)
    requires made < |script|
    ensures var a, count := script[made], BoundedCount(script[..made]);
      && BoundedCount(script[..made+1]) == count + (if a.Bounded? then 1 else 0)
      && (Ends(script[..made+1], entry) <==>
            a.Reply? || a.Fatal? || (a.Bounded? && count + 1 >= MAX_ATTEMPTS) || (a.Patient? && a.now >= entry + PATIENT_WINDOW))
      && (Ongoing(script[..made+1], entry) <==> Ongoing(script[..made], entry) && !Ends(script[..made+1], entry))
  {
    assert script[..made+1][..made] == script[..made];
  }

  lemma StillWaiting(script: seq<Attempt>, entry: int)
    requires Ongoing(script, entry)
    ensures Waits(script, entry) && forall k: nat :: !StopsAt(script, entry, k)
  {
    OngoingIff(script, entry);
    forall k: nat ensures !StopsAt(script, entry, k) { NoStop(script, entry, k); }
  }

  lemma Stopped(script: seq<Attempt>, entry: int, k: nat)
    requires k < |script| && Ongoing(script[..k], entry) && Ends(script[..k+1], entry)
    ensures StopsAt(script, entry, k) && !Waits(script, entry) && forall j: nat :: StopsAt(script, entry, j) ==> j == k
  {
    hide StopsAt, Waits;
    StopsIff(script, entry, k);
    StoppedIsNotWaiting(script, entry, k);
    forall j: nat | StopsAt(script, entry, j) ensures j == k { StopsOnce(script, entry, j, k); }
  }

  lemma NoStop(script: seq<Attempt>, entry: int, k: nat)
    requires Waits(script, entry)
    ensures !StopsAt(script, entry, k)
  {
    assert script[..|script|] == script;
    if k < |script| { WaitsBefore(script, entry, k, |script|); }
  }

  lemma StoppedIsNotWaiting(script: seq<Attempt>, entry: int, k: nat)
    requires StopsAt(script, entry, k)
    ensures !Waits(script, entry)
  {
    if Waits(script, entry) { NoStop(script, entry, k); }
  }

  // ---------------------------------------------------------------------------------------
  // The budgets do not interfere

  /** The attempts without the patient ones. */
  function Impatient(attempts: seq<Attempt>): seq<Attempt> {
    if attempts == [] then []
    else Impatient(attempts[..|attempts|-1]) + if attempts[|attempts|-1].Patient? then [] else [attempts[|attempts|-1]]
  }

  lemma BoundedSnoc(attempts: seq<Attempt>, a: Attempt)
    ensures BoundedCount(attempts + [a]) == BoundedCount(attempts) + if a.Bounded? then 1 else 0
  {
    assert (attempts + [a])[..|attempts|] == attempts;
  }

  lemma {:induction false} ImpatientKeeps(attempts: seq<Attempt>)
    ensures BoundedCount(Impatient(attempts)) == BoundedCount(attempts)
    ensures forall a :: a in Impatient(attempts) <==> a in attempts && !a.Patient?
  {
    if attempts != [] {
      var rest, last := attempts[..|attempts|-1], attempts[|attempts|-1];
      ImpatientKeeps(rest);
      assert attempts == rest + [last];
      BoundedSnoc(rest, last);
      BoundedSnoc(Impatient(rest), last);
      assert Impatient(attempts) == if last.Patient? then Impatient(rest) else Impatient(rest) + [last];
      hide BoundedCount;
    }
  }

  lemma EndsOnBounded(attempts: seq<Attempt>, last: Attempt, entry: int)
    requires last.Bounded?
    ensures Ends(attempts + [last], entry) <==> BoundedCount(attempts) + 1 >= MAX_ATTEMPTS
  {
    BoundedSnoc(attempts, last);
    hide BoundedCount;
  }

  /** A bounded failure ends the call exactly when it is the fourth, however many patient ones are
      interleaved before the deadline. */
  lemma BoundedEndsAtFourth(attempts: seq<Attempt>, last: Attempt, entry: int)
    requires Ongoing(attempts, entry) && last.Bounded?
    ensures Ends(attempts + [last], entry) <==> BoundedCount(attempts) == 3
    ensures Ends(attempts + [last], entry) <==> Ends(Impatient(attempts) + [last], entry)
    ensures Ongoing(Impatient(attempts), entry)
  {
    hide Ongoing, Ends, Impatient, BoundedCount;
    OngoingIff(attempts, entry);
    ImpatientKeeps(attempts);
    OngoingIff(Impatient(attempts), entry);
    EndsOnBounded(attempts, last, entry);
    EndsOnBounded(Impatient(attempts), last, entry);
  }

  /** The two budgets are judged apart: a call waits exactly when it would without the patient
      failures, and each of those came before the deadline. */
  lemma BudgetsAreApart(attempts: seq<Attempt>, entry: int)
    ensures Ongoing(attempts, entry)
            <==> Ongoing(Impatient(attempts), entry) && forall a <- attempts :: a.Patient? ==> a.now < entry + 1_800_000
  {
    hide Ongoing, Impatient, BoundedCount;
    OngoingIff(attempts, entry);
    ImpatientKeeps(attempts);
    OngoingIff(Impatient(attempts), entry);
  }

  // ---------------------------------------------------------------------------------------
  // How many attempts there can be

  function PatientCount(attempts: seq<Attempt>): nat {
    if attempts == [] then 0
    else PatientCount(attempts[..|attempts|-1]) + if attempts[|attempts|-1].Patient? then 1 else 0
  }

  /** The clock after the attempts. */
  function Clock(attempts: seq<Attempt>, entry: int): int {
    if attempts == [] then entry
    else
      match attempts[|attempts|-1]
      case Reply => Clock(attempts[..|attempts|-1], entry)
      case Patient(now) => now
      case Bounded(now) => now
      case Fatal(now) => now
  }

  /** The clock never goes back, and each patient failure moves it by at least `d`. */
  predicate Advances(attempts: seq<Attempt>, entry: int, d: nat)
    decreases |attempts|
  {
    attempts == [] ||
    (Advances(attempts[..|attempts|-1], entry, d)
     && Clock(attempts, entry) >= Clock(attempts[..|attempts|-1], entry) + if attempts[|attempts|-1].Patient? then d else 0)
  }

  lemma OneMoreTime(p: nat, d: nat)
    ensures (p + 1) * d == p * d + d
  {
  }

  lemma {:induction false} ClockCountsPatients(attempts: seq<Attempt>, entry: int, d: nat)
    requires Advances(attempts, entry, d)
    ensures Clock(attempts, entry) >= entry + PatientCount(attempts) * d
  {
    if attempts != [] {
      ClockCountsPatients(attempts[..|attempts|-1], entry, d);
      OneMoreTime(PatientCount(attempts[..|attempts|-1]), d);
    }
  }

  lemma {:induction false} LatestPatient(attempts: seq<Attempt>, entry: int, d: nat)
    requires Advances(attempts, entry, d) && Ongoing(attempts, entry) && PatientCount(attempts) > 0
    ensures PatientCount(attempts) * d < PATIENT_WINDOW
  {
    var rest, last := attempts[..|attempts|-1], attempts[|attempts|-1];
    if last.Patient? {
      ClockCountsPatients(attempts, entry, d);
    } else {
      LatestPatient(rest, entry, d);
    }
  }

  lemma {:induction false} CountsAddUp(attempts: seq<Attempt>, entry: int)
    requires Ongoing(attempts, entry)
    ensures |attempts| == BoundedCount(attempts) + PatientCount(attempts)
  {
    if attempts != [] { CountsAddUp(attempts[..|attempts|-1], entry); }
  }

  /** A call still waiting has made fewer than 1800 s / d patient attempts and at most three others;
      so a call makes at most that many attempts and one more. */
  lemma AttemptsAreBounded(attempts: seq<Attempt>, entry: int, d: nat)
    requires Advances(attempts, entry, d) && Ongoing(attempts, entry)
    ensures PatientCount(attempts) * d < 1_800_000
    ensures |attempts| <= PatientCount(attempts) + 3
  {
    CountsAddUp(attempts, entry);
    OngoingIff(attempts, entry);
    if PatientCount(attempts) > 0 { LatestPatient(attempts, entry, d); }
  }
}
