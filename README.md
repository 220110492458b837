# Restaurant recommendations: the root component's load-and-render state machine

This project models the root component `App` of a small single-page application
that shows restaurant recommendations fetched from a generative-AI service. The
component owns four pieces of state — the list of recommendations, a `loading`
flag, an optional error text and an `apiKeyMissing` flag — and changes them in
one asynchronous operation, `loadRecommendations`, which runs on mount and
again whenever the user presses retry. The page body is chosen from those four
values by five independently guarded fragments of markup.

The model has four files:

- `wrappers.dfy` — `Option`, standing for JavaScript's `T | null` and `T | undefined`.
- `types.dfy` — the `Restaurant` record, seven opaque strings.
- `app.dfy` — module `App`:
  - the state as a value (`AppState`) and the service outcome as an input (`FetchOutcome`);
  - the load split at its one `await`: `Begin` (the key guard, or entry into the in-flight state) and `Complete` (the try, catch and finally blocks);
  - `Load`, the whole load with nothing overlapping it, and `Run`, the mount-time load followed by retries;
  - the render conditions exactly as the markup writes them (`Rendered`), proved to draw exactly one fragment: the one the priority order `Select` picks;
  - the class `Component`, whose fields are the four state hooks; its methods `BeginLoad`, `CompleteLoad` and `LoadRecommendations` update them, and each is proved against the matching function.
- `app_properties.dfy` — module `AppProperties`:
  - the error texts;
  - an invariant (`Consistent`) that every reachable state keeps;
  - what each finished load leaves on screen;
  - that stale recommendations never show while an error is set;
  - that retrying is idempotent.

JavaScript truthiness is modelled where the markup relies on it. `error && …` and
`error || "API Key is missing."` count the empty string as false, exactly like
`null` (`App.Truthy`, `App.OrElse`). The model proves that no reachable state
holds an empty error text, so this never changes what is drawn.

Some consequences of the code that the model makes explicit:

- A failed load does not clear the list, because only the success path assigns it. The page still never draws a list while an error is set (`AppProperties.NoStaleRecommendationsShown`). The page starts a retry only from the two error displays, the only places it hands the load operation to. Under that restriction the list is non-empty only when the component is idle, error-free and has its key (`AppProperties.ReachableListSettled`). A stale list needs a load that follows a success, and only a load overlapping an earlier one can produce that (`AppProperties.StaleRecommendationsKept`).
- An `Error` with an empty message still gets the full template, with nothing between the prefix and the advice. Only a throw of something that is not an `Error` gets the unknown-error text (`App.Complete`, `App.FailureMessage`).
- The key guard runs before anything else, from whatever state the component is in. It sets `apiKeyMissing`, the error and `loading = false`, and never sets `loading` to true itself (`App.Begin`). On mount the page still shows the loading indicator first, because the initial state has `loading` true (`App.Initial`). A retry with a missing key goes straight from the error display to the overlay.
- The overlay's fallback text "API Key is missing." is never used in a reachable state. Whenever `apiKeyMissing` is set, the error holds the full missing-key text (`AppProperties.ConsistentRender`).

## Model

| member | source | states |
|---|---|---|
| `App.KeyPresent` | App.tsx:18 | The key guard holds exactly when the key is neither undefined nor the empty string, i.e. when it is truthy. |
| `App.FetchErrorMessage` | App.tsx:32 | The failure text for a thrown `Error`: the fixed prefix, the error's message verbatim, then the remediation advice. |
| `App.FailureMessage` | App.tsx:31-35 | The catch block writes the templated text for an `Error` and the fixed unknown-error text for anything else thrown. |
| `App.OrElse` | App.tsx:53 | JavaScript's `error \|\| "API Key is missing."`: the error text when it is truthy, the fallback when it is null or empty. |
| `Types.Restaurant` | types.ts:2-10 | A recommended restaurant: seven opaque strings (id, name, cuisine, description, address, price range, image prompt). |
| `AppProperties.RetryOffered` | App.tsx:53-58 | A retry can start only while one of the two error displays, the only views given the load operation as `onRetry`, is drawn. |
| `App.Initial` | App.tsx:12-15 | The first state has an empty list, `loading` true, no error and `apiKeyMissing` false, and the page then shows the loading indicator. |
| `App.Begin` | App.tsx:18-26 | The list is never touched. When the key is undefined or empty, the load finishes at once with the missing-key flag set, the fixed missing-key text and `loading` false. Otherwise the in-flight state (`apiKeyMissing` false, `loading` true, no error) is entered, whatever the prior state. |
| `App.Complete` | App.tsx:27-39 | Every outcome leaves `loading` false and `apiKeyMissing` unchanged. A resolved list is stored as received (same elements, same order). A failure leaves the list alone and sets the error to the template around the `Error`'s message, or to the unknown-error text for any other throw. A success leaves the error as it was. |
| `App.Load` | App.tsx:17-40 | A whole load always ends with `loading` false. `apiKeyMissing` is set exactly when the key is missing. The list changes only on a successful fetch. The final error is the missing-key text, none, or the failure text, one for each path. |
| `App.Run` | App.tsx:42-45 | After the mount-time load and any number of retries, `loading` is false. `apiKeyMissing` and the error are those the last load writes, whatever came before. |
| `App.Rendered` | App.tsx:51-68 | The five guarded fragments, with JavaScript truthiness for `error`, draw exactly one view in every state: the one given by the priority order missing key > loading > error > empty > list. |
| `App.Component.constructor` | App.tsx:12-15 | The component's fields start as the initial state. |
| `App.Component.BeginLoad` | App.tsx:18-26 | The fields become `Begin` of their old values. The service is called exactly when the key is present. |
| `App.Component.CompleteLoad` | App.tsx:27-39 | The fields become `Complete` of their old values and the outcome. |
| `App.Component.LoadRecommendations` | App.tsx:17-40 | The fields become `Load` of their old values. The service is called once when the key is present and not at all when it is missing. |
| `AppProperties.FetchErrorMessageParts` | App.tsx:32 | The failure text is the fixed prefix, then the fault's message verbatim (even when empty), then the remediation advice. |
| `AppProperties.FetchErrorMessageInjective` | App.tsx:32 | Two faults whose failure texts are equal had equal messages. |
| `AppProperties.ErrorTextsDistinct` | App.tsx:20-34 | The templated failure text is non-empty and differs from both the missing-key text and the unknown-error text. Those two also differ from each other. |
| `AppProperties.FailureMessageIsReported` | App.tsx:30-35 | Every failure writes a non-empty error text that is not the missing-key text. |
| `AppProperties.InitialConsistent` | App.tsx:12-15 | The initial state satisfies the invariant. |
| `AppProperties.BeginPreservesConsistent` | App.tsx:18-26 | The begin step keeps the invariant. |
| `AppProperties.CompletePreservesConsistent` | App.tsx:27-39 | From the in-flight state, the complete step keeps the invariant for every outcome. |
| `AppProperties.LoadEstablishesConsistent` | App.tsx:17-40 | A whole load ends in a consistent state, whatever state it started from. |
| `AppProperties.RunPreservesConsistent` | App.tsx:42-45 | Any series of loads keeps the invariant, because each load writes the three fields it constrains. |
| `AppProperties.ReachableStatesConsistent` | App.tsx:12-45 | Every state after mount and retries, and every in-flight state of the next retry, is consistent. |
| `AppProperties.ConsistentRender` | App.tsx:51-68 | In a consistent state, the overlay shows the configured missing-key text with no retry affordance. A set error is never drawn as the empty message or as the list. |
| `AppProperties.NoStaleRecommendationsShown` | App.tsx:57-68 | In every reachable state, including in-flight ones, the restaurant list is not drawn while an error is set. |
| `AppProperties.InFlightShowsLoading` | App.tsx:56 | With a key present, the in-flight state draws only the loading indicator, whatever came before. |
| `AppProperties.LoadShows` | App.tsx:51-68 | After a load the page shows one of four views, matching the path the load took. A missing key shows the overlay with the missing-key text. An empty list shows the empty message, and a non-empty list shows that list. A failure shows the error view with its failure text. |
| `AppProperties.StaleRecommendationsKept` | App.tsx:28-34 | Suppose a load succeeds with one record and a second load then throws something that is not an `Error`. The list still holds that record and the error is the unknown-error text, yet the page shows only the error view. The page never offers that second load as a retry. |
| `AppProperties.RetriesKeepListSettled` | App.tsx:53-58 | Start from an empty list, with every later load started from an error display. Then a non-empty list after the loads means idle, no error and the key present, and a state offering a retry holds no list. |
| `AppProperties.ReachableListSettled` | App.tsx:12-58 | When retries start only from the error displays, a non-empty list is held only in an idle, error-free state with the key present: after every load and while the next retry is in flight. |
| `AppProperties.RunEndsWithLastLoad` | App.tsx:17-45 | A series of loads ends in the last load applied to the state the earlier loads left. Retries accumulate nothing beyond what that one load keeps. |
| `AppProperties.RetryIsIdempotent` | App.tsx:17-40 | Repeating a load with the same key and service outcome leaves the state as one load did. |
| `AppProperties.LoadForgetsEarlierAttempts` | App.tsx:17-40 | A load's result depends on the earlier state only through the list, and not even on that after a successful fetch. |

## Left out

- The recommendation service (`services/geminiService`) is not part of this model. It is a network call, so its result is the abstract input `FetchOutcome`. For the same reason, the mapping from the service's records to `Restaurant` is not modelled.
- The read of the API key from the process environment is the parameter `key` of the begin step.
- React's state hooks, the `useCallback`/`useEffect` mount trigger and async scheduling are not modelled. `Run` stands for the mount-time load followed by retries, each finishing before the next begins.
- Overlapping loads are not modelled. The code does not guard against a retry while a fetch is in flight, and the load that resolves last decides the state. That is concurrency, so the invariants are proved only for loads that do not overlap. `Run` accepts a retry from any state, which over-approximates the page; `AppProperties.RetriesOffered` restricts retries to the views that receive the load operation.
- App.Component.CompleteLoad: has no precondition. The source runs the continuation from whatever state it finds, so the invariant lemma about it assumes the in-flight state instead.
- `console.error` is diagnostic output and is not modelled.
- The markup, CSS and presentational components (`Header`, `RestaurantList`, `LoadingIndicator`, `ErrorDisplay`, `Footer`) are not modelled. Only which fragment is drawn, and the data handed to it, is. The `ErrorDisplay` component is not part of this model, so the error view's retry affordance is whatever that component shows by default when `showRetry` is not passed.
- A thrown `Error` whose `message` is not a string is not modelled: the fault's message is a `string`.
