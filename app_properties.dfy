/**
  What the component's load operation and render conditions guarantee together:
  the error texts, the invariant every reachable state keeps, what each load
  leaves on screen, and how retries behave.
*/
module AppProperties {
  import opened Wrappers
  import opened Types
  import opened App

  // ---------------------------------------------------------------------------
  // Error texts
  // ---------------------------------------------------------------------------

  /** The failure text holds the fault's own message between the fixed prefix and the remediation advice. */
  lemma FetchErrorMessageParts(m: string)
    ensures |FetchErrorMessage(m)| == |FETCH_ERROR_PREFIX| + |m| + |FETCH_ERROR_REMEDIATION|
    ensures FetchErrorMessage(m)[..|FETCH_ERROR_PREFIX|] == FETCH_ERROR_PREFIX
    ensures FetchErrorMessage(m)[|FETCH_ERROR_PREFIX|..|FETCH_ERROR_PREFIX| + |m|] == m
    ensures FetchErrorMessage(m)[|FETCH_ERROR_PREFIX| + |m|..] == FETCH_ERROR_REMEDIATION
  {
  }

  /** Different fault messages give different failure texts, so the text shown determines the fault's message. */
  lemma FetchErrorMessageInjective(m1: string, m2: string)
    requires FetchErrorMessage(m1) == FetchErrorMessage(m2)
    ensures m1 == m2
  {
    FetchErrorMessageParts(m1);
    FetchErrorMessageParts(m2);
  }

  /** The three texts the load writes are non-empty and never confused with one another. */
  lemma ErrorTextsDistinct(m: string)
    ensures FetchErrorMessage(m) != ""
    ensures FetchErrorMessage(m) != MISSING_KEY_MESSAGE
    ensures FetchErrorMessage(m) != UNKNOWN_ERROR_MESSAGE
    ensures MISSING_KEY_MESSAGE != UNKNOWN_ERROR_MESSAGE
  {
  }

  /** A failure always leaves a truthy (non-empty) error that is not the missing-key text. */
  lemma FailureMessageIsReported(outcome: FetchOutcome)
    requires !outcome.Resolved?
    ensures Truthy(Some(FailureMessage(outcome)))
    ensures FailureMessage(outcome) != MISSING_KEY_MESSAGE
  {
  }

  // ---------------------------------------------------------------------------
  // The invariant of reachable states
  // ---------------------------------------------------------------------------

  /**
    What holds of every state the component can be in: the overlay flag goes
    with exactly the missing-key text, no error text is empty, and while a
    fetch is in flight there is no error (so the overlay and the loading
    flag are never set together).
  */
  predicate Consistent(s: AppState) {
    && (s.apiKeyMissing <==> s.error == Some(MISSING_KEY_MESSAGE))
    && (s.loading ==> s.error == None)
    && (s.error.Some? ==> s.error.value != "")
  }

  lemma InitialConsistent()
    ensures Consistent(Initial())
  {
  }

  /** The begin step keeps the invariant from any consistent state. */
  lemma BeginPreservesConsistent(s: AppState, key: ApiKey)
    requires Consistent(s)
    ensures Consistent(Begin(s, key))
  {
  }

  /** The complete step keeps the invariant from the in-flight state the begin step enters. */
  lemma CompletePreservesConsistent(s: AppState, outcome: FetchOutcome)
    requires Consistent(s) && s.loading && !s.apiKeyMissing
    ensures Consistent(Complete(s, outcome))
  {
  }

  /** A whole load keeps the invariant; the prior state need not be consistent. */
  lemma LoadEstablishesConsistent(s: AppState, key: ApiKey, outcome: FetchOutcome)
    ensures Consistent(Load(s, key, outcome))
  {
  }

  /** Any series of loads keeps the invariant; it follows from what `Run` promises of its last load. */
  lemma RunPreservesConsistent(s: AppState, attempts: seq<LoadAttempt>)
    requires Consistent(s)
    ensures Consistent(Run(s, attempts))
  {
  }

  /**
    Every state the component can be observed in — after the mount-time load and
    any number of retries, or while the next retry awaits the service — is consistent.
  */
  lemma ReachableStatesConsistent(attempts: seq<LoadAttempt>, key: ApiKey)
    ensures Consistent(Run(Initial(), attempts))
    ensures Consistent(Begin(Run(Initial(), attempts), key))
  {
  }

  // ---------------------------------------------------------------------------
  // What is drawn
  // ---------------------------------------------------------------------------

  /**
    In a consistent state the overlay always shows the configured missing-key
    text (its fallback is never needed), and a set error is never drawn as the
    empty message or as the restaurant list.
  */
  lemma ConsistentRender(s: AppState)
    requires Consistent(s)
    ensures Select(s).MissingKeyOverlay? <==> s.apiKeyMissing
    ensures Select(s).MissingKeyOverlay? ==> Select(s) == MissingKeyOverlay(MISSING_KEY_MESSAGE, false)
    ensures s.error.Some? ==> !Select(s).RestaurantList? && !Select(s).NoRecommendations?
    ensures Select(s).RestaurantList? ==> s.error == None
  {
  }

  /** Stale recommendations kept after a failed load are never drawn while the error is shown. */
  lemma NoStaleRecommendationsShown(attempts: seq<LoadAttempt>, key: ApiKey)
    ensures Run(Initial(), attempts).error.Some? ==>
              !Select(Run(Initial(), attempts)).RestaurantList?
    ensures Begin(Run(Initial(), attempts), key).error.Some? ==>
              !Select(Begin(Run(Initial(), attempts), key)).RestaurantList?
  {
  }

  /** While a fetch is in flight only the loading indicator is drawn, whatever came before. */
  lemma InFlightShowsLoading(s: AppState, key: ApiKey)
    requires KeyPresent(key)
    ensures Rendered(Begin(s, key)) == [Loading]
  {
  }

  /** What a finished load leaves on screen, for each path through it. */
  lemma LoadShows(s: AppState, key: ApiKey, outcome: FetchOutcome)
    ensures Rendered(Load(s, key, outcome)) ==
              if !KeyPresent(key) then [MissingKeyOverlay(MISSING_KEY_MESSAGE, false)]
              else if outcome.Resolved? then
                (if outcome.records == [] then [NoRecommendations]
                 else [RestaurantList(outcome.records)])
              else [ErrorWithRetry(FailureMessage(outcome))]
  {
  }

  /**
    A failed load does not clear the list: after a success, a failing load
    leaves the old record in place while the page draws only the error. The
    page never starts that second load itself, because a list view offers no
    retry; only a load overlapping the first one produces this sequence.
  */
  lemma StaleRecommendationsKept(r: Restaurant)
    ensures var attempts := [LoadAttempt(Some("key"), Resolved([r])),
                             LoadAttempt(Some("key"), ThrewOther)];
            var s := Run(Initial(), attempts);
            s.recommendations == [r] && s.error == Some(UNKNOWN_ERROR_MESSAGE) &&
            Select(s) == ErrorWithRetry(UNKNOWN_ERROR_MESSAGE) &&
            !RetriesOffered(Initial(), attempts)
  {
    var attempts := [LoadAttempt(Some("key"), Resolved([r])), LoadAttempt(Some("key"), ThrewOther)];
    var s1 := Load(Initial(), Some("key"), Resolved([r]));
    var rest := [LoadAttempt(Some("key"), ThrewOther)];
    assert attempts[1..] == rest && rest[1..] == [];
    assert Run(Initial(), attempts) == Run(s1, rest);
    assert Run(s1, rest) == Run(Load(s1, Some("key"), ThrewOther), []);
    assert Select(s1) == RestaurantList([r]);
  }

  // ---------------------------------------------------------------------------
  // Retries the page can start
  // ---------------------------------------------------------------------------

  /**
    The page hands the load operation to the two error displays only, so a
    retry can start only while one of them is drawn.
  */
  predicate RetryOffered(s: AppState) {
    Select(s).ErrorWithRetry? || Select(s).MissingKeyOverlay?
  }

  /** Every load after the first starts from a state in which the page offers a retry. */
  predicate RetriesOffered(s: AppState, attempts: seq<LoadAttempt>)
    decreases |attempts|
  {
    |attempts| <= 1 ||
    (var next := Load(s, attempts[0].apiKey, attempts[0].outcome);
     RetryOffered(next) && RetriesOffered(next, attempts[1..]))
  }

  /** A non-empty list is held only when the component is idle, error-free and has its key. */
  predicate ListSettled(s: AppState) {
    |s.recommendations| > 0 ==> !s.loading && s.error == None && !s.apiKeyMissing
  }

  lemma {:induction false} RetriesKeepListSettled(s: AppState, attempts: seq<LoadAttempt>)
    requires s.recommendations == []
    requires RetriesOffered(s, attempts)
    ensures ListSettled(Run(s, attempts))
    ensures attempts == [] || RetryOffered(Run(s, attempts)) ==> Run(s, attempts).recommendations == []
    decreases |attempts|
  {
    if attempts != [] {
      var next := Load(s, attempts[0].apiKey, attempts[0].outcome);
      if |attempts| == 1 {
        assert attempts[1..] == [];
        assert Run(s, attempts) == next;
      } else {
        RetriesKeepListSettled(next, attempts[1..]);
      }
    }
  }

  /**
    When retries start only where the page offers them, the list is non-empty
    only in an idle, error-free state with the key present: after every
    finished load and while the next retry is in flight.
  */
  lemma ReachableListSettled(attempts: seq<LoadAttempt>, key: ApiKey)
    requires RetriesOffered(Initial(), attempts)
    ensures ListSettled(Run(Initial(), attempts))
    ensures attempts == [] || RetryOffered(Run(Initial(), attempts)) ==>
              ListSettled(Begin(Run(Initial(), attempts), key))
  {
    RetriesKeepListSettled(Initial(), attempts);
  }

  // ---------------------------------------------------------------------------
  // Retries
  // ---------------------------------------------------------------------------

  /** Repeating a load with the same key and the same service outcome changes nothing more. */
  lemma RetryIsIdempotent(s: AppState, key: ApiKey, outcome: FetchOutcome)
    ensures Load(Load(s, key, outcome), key, outcome) == Load(s, key, outcome)
  {
  }

  /**
    A load keeps nothing of the earlier attempt except the list, and a
    successful fetch does not even keep that.
  */
  lemma LoadForgetsEarlierAttempts(s1: AppState, s2: AppState, key: ApiKey, outcome: FetchOutcome)
    requires s1.recommendations == s2.recommendations || (KeyPresent(key) && outcome.Resolved?)
    ensures Load(s1, key, outcome) == Load(s2, key, outcome)
  {
  }

  /** A series of loads ends in what its last load makes of the state the earlier ones left. */
  lemma {:induction false} RunEndsWithLastLoad(s: AppState, attempts: seq<LoadAttempt>)
    requires attempts != []
    ensures var n := |attempts| - 1;
            Run(s, attempts) == Load(Run(s, attempts[..n]), attempts[n].apiKey, attempts[n].outcome)
    decreases |attempts|
  {
    var n := |attempts| - 1;
    var next := Load(s, attempts[0].apiKey, attempts[0].outcome);
    if n == 0 {
      assert attempts[..n] == [] && attempts[1..] == [];
    } else {
      RunEndsWithLastLoad(next, attempts[1..]);
      assert attempts[1..][..n - 1] == attempts[..n][1..];
      assert attempts[1..][n - 1] == attempts[n];
      assert Run(s, attempts[..n]) == Run(next, attempts[..n][1..]);
    }
  }
}
