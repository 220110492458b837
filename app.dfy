/**
  The root component of the application (App.tsx): four pieces of view state,
  the load operation that updates them around one call to the recommendation
  service, and the conditions that decide which part of the page is drawn.
*/
module App {
  import opened Wrappers
  import opened Types

  // ---------------------------------------------------------------------------
  // Messages the component writes into `error`
  // ---------------------------------------------------------------------------

  const MISSING_KEY_MESSAGE := "API Key is missing. Please configure it in your environment variables."
  const FETCH_ERROR_PREFIX := "Failed to fetch recommendations: "
  const FETCH_ERROR_REMEDIATION := ". Ensure your Gemini API key is valid and has permissions."
  const UNKNOWN_ERROR_MESSAGE := "An unknown error occurred while fetching recommendations."
  /** What the overlay shows when `error` is null or empty. */
  const OVERLAY_FALLBACK := "API Key is missing."

  /** The template used when the service throws an `Error` whose message is `m`. */
  function FetchErrorMessage(m: string): (r: string) {
    FETCH_ERROR_PREFIX + m + FETCH_ERROR_REMEDIATION
  }

  // ---------------------------------------------------------------------------
  // View state and the inputs of a load
  // ---------------------------------------------------------------------------

  /** A snapshot of the four state hooks. */
  datatype AppState = AppState(
    recommendations: seq<Restaurant>,
    loading: bool,
    error: Option<string>,
    apiKeyMissing: bool)

  /** JavaScript truthiness of an optional string (`null` or `undefined` is `None`): the empty string is falsy. */
  predicate Truthy(e: Option<string>) {
    e.Some? && e.value != ""
  }

  /** The value of the API key in the environment; `None` is `undefined`. */
  type ApiKey = Option<string>

  /** The configuration guard: the key is neither undefined nor empty, i.e. it is truthy. */
  predicate KeyPresent(key: ApiKey) {
    Truthy(key)
  }

  /** How the awaited service call ends. */
  datatype FetchOutcome =
    | Resolved(records: seq<Restaurant>)   // the promise resolves with a list
    | ThrewError(message: string)          // it rejects with an `Error`
    | ThrewOther                           // it rejects with anything else

  /** One run of the load operation, as triggered on mount or by a retry. */
  datatype LoadAttempt = LoadAttempt(apiKey: ApiKey, outcome: FetchOutcome)

  /** The state before the first load: nothing fetched, loading, no error. */
  function Initial(): (s: AppState)
    ensures Select(s) == Loading
  {
    AppState([], true, None, false)
  }

  // ---------------------------------------------------------------------------
  // The load operation, split at its one await
  // ---------------------------------------------------------------------------

  /**
    Everything the load operation does before it awaits the service: the key
    guard (which finishes the load) or the switch into the in-flight state.
  */
  function Begin(s: AppState, key: ApiKey): (r: AppState)
    ensures r.recommendations == s.recommendations
    ensures !KeyPresent(key) ==>
              r.apiKeyMissing && !r.loading && r.error == Some(MISSING_KEY_MESSAGE)
    ensures KeyPresent(key) ==> !r.apiKeyMissing && r.loading && r.error == None
  {
    if !KeyPresent(key) then
      s.(apiKeyMissing := true, error := Some(MISSING_KEY_MESSAGE), loading := false)
    else
      s.(apiKeyMissing := false, loading := true, error := None)
  }

  /** The error text the catch block writes for a failed call. */
  function FailureMessage(outcome: FetchOutcome): (r: string)
    requires !outcome.Resolved?
  {
    match outcome
    case ThrewError(m) => FetchErrorMessage(m)
    case ThrewOther => UNKNOWN_ERROR_MESSAGE
  }

  /**
    Everything after the await: the try block stores a resolved list, the catch
    block sets the error, and the finally block clears `loading` on every path.
  */
  function Complete(s: AppState, outcome: FetchOutcome): (r: AppState)
    ensures !r.loading
    ensures r.apiKeyMissing == s.apiKeyMissing
    ensures r.recommendations == if outcome.Resolved? then outcome.records else s.recommendations
    ensures r.error == if outcome.Resolved? then s.error else Some(FailureMessage(outcome))
  {
    var afterTry :=
      if outcome.Resolved? then s.(recommendations := outcome.records)
      else s.(error := Some(FailureMessage(outcome)));
    afterTry.(loading := false)
  }

  /** The error a finished load leaves, whatever the state it started from. */
  function ErrorAfterLoad(key: ApiKey, outcome: FetchOutcome): (e: Option<string>) {
    if !KeyPresent(key) then Some(MISSING_KEY_MESSAGE)
    else if outcome.Resolved? then None
    else Some(FailureMessage(outcome))
  }

  /** A whole load, when no other load overlaps it. */
  function Load(s: AppState, key: ApiKey, outcome: FetchOutcome): (r: AppState)
    ensures !r.loading
    ensures r.apiKeyMissing <==> !KeyPresent(key)
    ensures r.recommendations ==
              if KeyPresent(key) && outcome.Resolved? then outcome.records else s.recommendations
    ensures r.error == ErrorAfterLoad(key, outcome)
  {
    var started := Begin(s, key);
    if KeyPresent(key) then Complete(started, outcome) else started
  }

  /**
    The state after the mount-time load and a series of retries, one after
    another. Nothing here restricts what a retry starts from; see
    `AppProperties.RetriesOffered` for the retries the page can start.
  */
  function Run(s: AppState, attempts: seq<LoadAttempt>): (r: AppState)
    ensures attempts != [] ==> !r.loading
    ensures attempts != [] ==> (r.apiKeyMissing <==> !KeyPresent(attempts[|attempts| - 1].apiKey))
    ensures attempts != [] ==>
              r.error == ErrorAfterLoad(attempts[|attempts| - 1].apiKey, attempts[|attempts| - 1].outcome)
    decreases |attempts|
  {
    if attempts == [] then s
    else Run(Load(s, attempts[0].apiKey, attempts[0].outcome), attempts[1..])
  }

  // ---------------------------------------------------------------------------
  // Rendering
  // ---------------------------------------------------------------------------

  /** The five parts of the page that depend on the state. */
  datatype View =
    | MissingKeyOverlay(message: string, showRetry: bool)
    | Loading
    | ErrorWithRetry(message: string)
    | NoRecommendations
    | RestaurantList(restaurants: seq<Restaurant>)

  /** `e || fallback` on `string | null`. */
  function OrElse(e: Option<string>, fallback: string): (r: string) {
    if Truthy(e) then e.value else fallback
  }

  /** The view chosen by priority: missing key, then loading, then error, then the list. */
  function Select(s: AppState): (v: View) {
    if s.apiKeyMissing then MissingKeyOverlay(OrElse(s.error, OVERLAY_FALLBACK), false)
    else if s.loading then Loading
    else if Truthy(s.error) then ErrorWithRetry(s.error.value)
    else if |s.recommendations| == 0 then NoRecommendations
    else RestaurantList(s.recommendations)
  }

  /**
    The page body as the markup writes it: five fragments, each guarded by its
    own condition and drawn whenever that condition holds. Exactly one guard
    holds in every state, and it is the one the priority order picks.
  */
  function Rendered(s: AppState): (views: seq<View>)
    ensures views == [Select(s)]
  {
    (if s.apiKeyMissing
     then [MissingKeyOverlay(OrElse(s.error, OVERLAY_FALLBACK), false)] else [])
    + (if s.loading && !s.apiKeyMissing then [Loading] else [])
    + (if !s.loading && Truthy(s.error) && !s.apiKeyMissing
       then [ErrorWithRetry(s.error.value)] else [])
    + (if !s.loading && !Truthy(s.error) && !s.apiKeyMissing && |s.recommendations| == 0
       then [NoRecommendations] else [])
    + (if !s.loading && !Truthy(s.error) && !s.apiKeyMissing && |s.recommendations| > 0
       then [RestaurantList(s.recommendations)] else [])
  }

  // ---------------------------------------------------------------------------
  // The component
  // ---------------------------------------------------------------------------

  /** The component's state hooks as fields, with the load operation as methods. */
  class Component {
    var recommendations: seq<Restaurant>
    var loading: bool
    var error: Option<string>
    var apiKeyMissing: bool

    function State(): (s: AppState)
      reads this
    {
      AppState(recommendations, loading, error, apiKeyMissing)
    }

    constructor ()
      ensures State() == Initial()
    {
      recommendations := [];
      loading := true;
      error := None;
      apiKeyMissing := false;
    }

    /**
      The part of the load before the await. `fetching` tells whether the
      service is then called; when it is false the load has already finished.
    */
    method BeginLoad(key: ApiKey) returns (fetching: bool)
      modifies this
      ensures fetching <==> KeyPresent(key)
      ensures State() == Begin(old(State()), key)
    {
      if !KeyPresent(key) {
        apiKeyMissing := true;
        error := Some(MISSING_KEY_MESSAGE);
        loading := false;
        return false;
      }
      apiKeyMissing := false;
      loading := true;
      error := None;
      fetching := true;
    }

    /** The part of the load after the awaited call ends with `outcome`. */
    method CompleteLoad(outcome: FetchOutcome)
      modifies this
      ensures State() == Complete(old(State()), outcome)
    {
      match outcome {
        case Resolved(records) =>
          recommendations := records;
        case ThrewError(m) =>
          error := Some(FetchErrorMessage(m));
        case ThrewOther =>
          error := Some(UNKNOWN_ERROR_MESSAGE);
      }
      loading := false;
    }

    /**
      One whole load with no other load overlapping it. `outcome` is what the
      service would produce; `serviceCalls` is how often it is called.
    */
    method LoadRecommendations(key: ApiKey, outcome: FetchOutcome) returns (serviceCalls: nat)
      modifies this
      ensures serviceCalls == if KeyPresent(key) then 1 else 0
      ensures State() == Load(old(State()), key, outcome)
    {
      serviceCalls := 0;
      var fetching := BeginLoad(key);
      if fetching {
        serviceCalls := serviceCalls + 1;
        CompleteLoad(outcome);
      }
    }
  }
}
