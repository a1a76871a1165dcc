# Cal: calendar time analytics, modelled in Dafny

The repository's one component with behaviour is `Cal` (`components/Cal.jsx`).
On mount it fetches hours-per-calendar from the aggregation endpoint once and
records the request's lifecycle in three state cells: `status` (`idle`,
`loading`, `success`, `error`), `calendarData` and `error`. It projects the data
onto a bar chart's labels and values and renders up to three blocks: a loading
line, an error panel and the chart. This project models those three parts as
pure Dafny functions and proves what they promise.

- `chart.dfy` (module `Chart`): the calendar entries and the bar-chart `data`
  object, built by an order-preserving projection. The projection is proved to
  be invertible, so it loses and reorders nothing.
- `fetch.dfy` (module `Fetch`): the state triple, the settlement of the fetch as
  an input, the choice of the error message, and the `Start` and `Settle`
  transitions of `fetchData`. It also gives the three states the component
  passes through over its life.
- `view.dfy` (module `View`): the three render guards and what each transition
  does to the screen.

The hours values are never inspected by the component, so their type is a type
parameter `H`. The network call and JSON parsing become the `Settlement` input:
- an OK response with its array of entries;
- a non-OK response whose body parsed to a non-null value, with an optional
  `error` field;
- an exception with its message. This covers a network failure, a body that is
  not JSON (the exception from `response.json()`), and a non-OK body that parsed
  to `null` (reading `data.error` then throws a TypeError).

## Behaviour worth noting

- The component fetches once, on mount, from `/api/caldav`. It takes no
  parameters and keeps no request tag.
- The initial idle state renders none of the three blocks
  (`View.InitialRendersNothing`).
- A failure's message is whatever the try block raised. A non-OK response with
  a non-null body raises its truthy `error` field, or else
  "Failed to fetch calendar data". A body that is not JSON, or that is `null`,
  raises the exception's own message instead (`Fetch.Attempt`).
- A success does not clear an earlier error message (`Fetch.ErrorIsSticky`).
  With a single fetch per mount, no error can exist before a success, so the
  screen is unaffected (`Fetch.MountStates`).
- An exception with an empty message leaves the `error` status with nothing on
  screen, because the panel is guarded by the message's truthiness
  (`View.SettleFailView`, `View.MountShowsOneBlock`).

## Model

| member | source | states |
|---|---|---|
| Chart.Names | components/Cal.jsx:43 | the labels are the entries' names, one per entry, at the same positions |
| Chart.Hours | components/Cal.jsx:47 | the dataset values are the entries' hours, one per entry, at the same positions |
| Chart.Project | components/Cal.jsx:42-51 | exactly one dataset, labelled "Hours per Calendar" and coloured #4F46E5 whatever the input; labels and values run parallel to the entries, in order |
| Chart.ProjectRoundTrip | components/Cal.jsx:42-51 | the entries can be read back off the projected chart, so the projection loses nothing |
| Chart.EntriesRoundTrip | components/Cal.jsx:42-51 | every chart with one fixed-style dataset and as many values as labels is the projection of its own entries |
| Chart.ProjectInjective | components/Cal.jsx:42-51 | two entry sequences project to the same chart exactly when they are equal, order included |
| Chart.ProjectEmpty | components/Cal.jsx:42-51 | the empty response projects to no labels and one dataset with no values |
| Fetch.ErrorMessage | components/Cal.jsx:29 | the non-OK message is the body's error field when that is present and non-empty, else "Failed to fetch calendar data"; it is never empty |
| Fetch.Attempt | components/Cal.jsx:25-30 | the try block yields the parsed entries exactly for an OK response; a non-OK response raises the chosen message and an exception keeps its own |
| Fetch.Start | components/Cal.jsx:24 | starting a fetch sets the status to loading and leaves the data and error cells unchanged |
| Fetch.Settle | components/Cal.jsx:25-36 | success exactly for an OK response, storing the body and keeping the error; otherwise error status with the data kept and the message stored, which is non-empty for a non-OK response |
| Fetch.Initial | components/Cal.jsx:18-20 | the component starts idle, with no calendar data and a null error |
| Fetch.Mount | components/Cal.jsx:18-40 | the component passes through three states: idle with no data and null error; loading with the same cells; then success holding exactly the body for an OK response, or error with no data and the raised message otherwise |
| Fetch.OutcomeDeterminesState | components/Cal.jsx:25-35 | two settlements leave the same state exactly when the try block ends the same way, so failures are told apart only by their message |
| Fetch.TransitionsKeepConsistent | components/Cal.jsx:24-35 | an error status always comes with an error message, and both transitions keep that so |
| Fetch.ErrorIsSticky | components/Cal.jsx:24-35 | once set, the error cell is never cleared, not even by a later success |
| Fetch.MountStates | components/Cal.jsx:18-40 | every state of the component's life is consistent, and a success on mount carries no error |
| View.ShowsLoading | components/Cal.jsx:74 | the loading line never shows together with the chart, nor in the error status |
| View.ShowsErrorPanel | components/Cal.jsx:75-79 | the error panel shows only for a non-null, non-empty message, so it never renders empty |
| View.ShowsChart | components/Cal.jsx:80 | the chart never shows while loading or after a failure, and when shown it has at least one bar |
| View.Render | components/Cal.jsx:74-89 | loading line iff status is loading; error panel iff the error is non-null and non-empty, showing it; chart iff success with non-empty data, drawing exactly that data |
| View.InitialRendersNothing | components/Cal.jsx:74-80 | the initial idle state shows none of the three blocks |
| View.StartView | components/Cal.jsx:74-80 | after a fetch starts the loading line shows, the chart does not, and the error panel is unchanged |
| View.SettleOkView | components/Cal.jsx:74-80 | after an OK settlement the loading line is gone, the chart shows the body exactly when it is non-empty, and the error panel is unchanged |
| View.SettleFailView | components/Cal.jsx:74-80 | after a failure neither the loading line nor the chart shows; a non-OK response always shows its message, an exception exactly when its message is non-empty |
| View.ErrorPanelIgnoresStatus | components/Cal.jsx:75-79 | the error panel depends on the error cell only, not on the status |
| View.EmptySuccessShowsNothing | components/Cal.jsx:80 | an empty OK response ends in success, not error, with nothing on screen |
| View.MountShowsOneBlock | components/Cal.jsx:74-80 | at most one block is on screen in each of the three states, with each branch's two state updates rendered together; after settlement exactly one is, unless the response was an empty array or the exception's message was empty |

## Left out

- The network call `fetch('/api/caldav')` and `response.json()` are not modelled; their result is the `Settlement` input.
- React's hooks, effect scheduling and batching are not modelled. The effect's single run on mount is the `Fetch.Mount` trace.
- The JSX markup, CSS classes and page layout (`pages/index.jsx`) have no behaviour and are not modelled.
- Chart.js registration (line 15) and the constant `options` object (lines 53-69) are library configuration and are not modelled.
- Hours are a type parameter: the component never computes with them, so no numeric semantics are modelled.
- An OK response whose body is not an array is not modelled; `calendarData.map` would throw while rendering. `Settlement.Ok` carries a well-formed sequence of entries.
- A non-OK body whose `error` field is not a string (a number or an object, stringified by `new Error`) is not modelled; the field is an optional string.
- View.MountShowsOneBlock: each branch's two state updates (lines 31-32 and 34-35) are taken to render together, as React batches them. Without batching, the render between `setError` and `setStatus('error')` would show the loading line and the error panel together.
