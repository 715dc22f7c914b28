# Campaign dashboard: a Dafny model of its logic

The campaign dashboard is a browser front end over a remote campaign API.
This project models the three pieces of it that hold logic:

- **The live-metrics panel** (`components/Campaigns/InsightsStream.tsx`). It
  keeps three state cells: the latest insight snapshot, a connection indicator
  (`connecting`, `live`, `reconnecting`, `offline`) and the time of the last
  update. One run of its effect opens a server-sent-events connection to
  `<base>/campaigns/<id>/insights/stream`. The connection's handlers react to
  open, message and error events. An error closes the connection and schedules
  a 2000 ms timer. When the timer fires, the indicator goes offline and a new
  connection to the same URL is opened. The cleanup closes whichever connection
  the run holds at that moment. A pure projection turns a snapshot into four
  metric cards.
- **The campaign table** (`components/Campaigns/CampaignTable.tsx`). It maps
  each campaign status to a badge variant and chooses between four displays:
  the retry panel, four skeleton rows, a "No campaigns found" row, or one row
  per campaign.
- **Error-message extraction** (`lib/utils.ts`). It picks the message to show
  for a thrown value through a chain of JavaScript `||` fallbacks.

## Layout

- `wrappers.dfy` (module `Wrappers`): `Option`.
- `js.dfy` (module `Js`): the JavaScript values the code tests, with
  truthiness, `||` and `??`.
- `utils.dfy` (module `Utils`): `extractErrorMessage`, and a reference
  definition of a `||` chain (`FirstTruthy`) that it is proved equal to.
- `campaign_table.dfy` (module `CampaignTable`): the badge mapping and the
  choice of display, as pure functions.
- `insights_stream.dfy` (module `InsightsStream`): the snapshot datatype, the
  metric projection, the indicator labels, the stream URL, the invariant of the
  connection bookkeeping with its preservation lemmas, and the class
  `LiveMetrics`.
- `insights_scenarios.dfy` (module `InsightsScenarios`): event sequences run
  through `LiveMetrics`, with their outcomes stated as postconditions.

## How the live panel is modelled

`LiveMetrics` is the component: `insights`, `status` and `lastUpdated` are its
state cells. `connections` lists every EventSource the component has created,
each with its URL, whether it is still open, and the effect run that created
it. `activations` lists every run of the effect. Each run records its closure
state:

- its URL;
- `first`: the connection its handlers were attached to;
- `binding`: the connection its `let eventSource` variable holds now;
- `pendingTimers`: its reconnect timers that have not fired yet;
- `active`: whether its cleanup has yet to run.

The events are methods. `OnOpen`, `OnMessage` and `OnError` take the index of
the connection that fires. They change state only when that connection is open
and carries handlers, because the browser fires nothing on a closed
EventSource. `OnTimer` takes the run whose timer fires. `Unmount` runs the
current cleanup. `ChangeId` runs the current cleanup and then starts a new run,
but only when the id really changed, since the effect depends on `[id]`.
`JSON.parse` becomes a `Payload` input:

- `Malformed`: the text does not parse;
- `ParsedNull`: `null`;
- `ParsedFalsy`: `0`, `false` or `""`;
- `Parsed(insight)`: anything whose fields can be read.

The clock is a `now` parameter. The `NEXT_PUBLIC_API_URL` environment variable
is an `Option<string>` fixed at construction; when it is unset it concatenates
as `"undefined"`.

Two behaviours of the code are reproduced as written:

- the timer's new connection gets no handlers, so after one reconnect the
  indicator stays `offline` until the id changes;
- the cleanup does not cancel a pending timer.

`WellFormed` is the invariant that every method keeps:

- in each run, only the connection the run is bound to can be open;
- each run creates at most two connections;
- a run has at most one pending timer, and only after its handled connection
  was closed.

It follows that at most one connection is open while the id has never changed,
and never more than one per run (`OpenConnectionsBound`). The scenario
`TimerAfterIdChange` shows that the bound per run is all there is. A timer left
pending across an id change reopens the old URL after the new stream is up.
That leaves two connections open, and it turns the new stream's indicator
`offline`.

The code resets neither the snapshot nor the indicator when the id changes; the
offline transition at `InsightsStream.tsx:105` is unconditional; the cleanup at
`:110` cancels no timer.

## Model

| member | source | states |
|---|---|---|
| `Utils.ExtractErrorMessage` | lib/utils.ts:14-25 | AxiosError: `response.data.message` if truthy, else `response.data.error` if truthy, else the fallback; a missing response or body gives the fallback; a plain Error gives its message unless empty, else the fallback; any other value gives the fallback; the default fallback is "Something went wrong" |
| `Utils.FirstTruthyIsEarliest` | lib/utils.ts:17 | an or-chain yields the earliest truthy candidate with every earlier one falsy, or the last operand when none is truthy |
| `Utils.FirstTruthyOfTruthyIsTruthy` | lib/utils.ts:17 | an or-chain ending in a truthy operand is truthy |
| `Utils.ExtractIsPriorityChain` | lib/utils.ts:16-24 | the extraction equals the or-chain over its candidates in priority order (message, error; or the Error's message; or none), ending in the fallback |
| `Utils.ResultNeverEmpty` | lib/utils.ts:17-24 | with a non-empty fallback the result is truthy and never the empty string |
| `Utils.DefaultResultNeverEmpty` | lib/utils.ts:14 | with the default fallback the result is never the empty string |
| `CampaignTable.StatusVariant` | components/Campaigns/CampaignTable.tsx:31-42 | active gives secondary, paused gives default, completed gives success, and every other string gives secondary (each as an if-and-only-if) |
| `CampaignTable.DisplayedCampaigns` | components/Campaigns/CampaignTable.tsx:24-28 | the shown list is the response's campaigns when data is present, and empty otherwise |
| `CampaignTable.CampaignRowsOf` | components/Campaigns/CampaignTable.tsx:93-123 | one row per campaign in list order; each row shows its campaign, links name and View button to "/campaigns/" + id, and carries the status's badge variant |
| `CampaignTable.SelectView` | components/Campaigns/CampaignTable.tsx:58-123 | retry panel if and only if there is an error, whatever the loading or data state; otherwise exactly four skeleton rows while loading; the single "No campaigns found" row if and only if not loading and the list is empty; otherwise one linked row per campaign in order |
| `CampaignTable.TableBodyNeverEmpty` | components/Campaigns/CampaignTable.tsx:78-123 | without an error the table body has at least one row: 4 while loading, 1 for an empty list, else one per campaign |
| `InsightsStream.ProjectLayout` | components/Campaigns/InsightsStream.tsx:116-128 | one card per layout entry, in layout order, with that entry's key and label and the entry's formatted value |
| `InsightsStream.InsightMetrics` | components/Campaigns/InsightsStream.tsx:113-129 | no cards if and only if there is no snapshot; otherwise exactly four, in the order impressions, clicks, conversions, spend, with their labels; a non-numeric field shows "—"; numeric fields use the number formatter, and spend uses the currency formatter |
| `InsightsStream.StatusLabelsDistinct` | components/Campaigns/InsightsStream.tsx:131-139 | the label record covers every state and gives different states different labels |
| `InsightsStream.StreamUrl` | components/Campaigns/InsightsStream.tsx:83-84 | the URL splits into the base ("undefined" when the variable is unset), "/campaigns/", the id and "/insights/stream" |
| `InsightsStream.StreamUrlInjective` | components/Campaigns/InsightsStream.tsx:83-84 | under one base, different ids give different stream URLs |
| `InsightsStream.BoundConnections` | components/Campaigns/InsightsStream.tsx:86 | the connections the runs' `eventSource` variables hold are at most one per run, and include each run's binding |
| `InsightsStream.AtMostOneOpenPerActivation` | components/Campaigns/InsightsStream.tsx:101-107 | within one run of the effect at most one connection is open |
| `InsightsStream.OpenConnectionsBound` | components/Campaigns/InsightsStream.tsx:86-110 | every open connection is some run's current binding, so there are never more open connections than runs |
| `InsightsStream.SingleRunAtMostOneOpen` | components/Campaigns/InsightsStream.tsx:103-106 | while the id has never changed, at most one connection is open, because the failed one is closed before its replacement opens |
| `InsightsStream.ErrorKeepsInvariant` | components/Campaigns/InsightsStream.tsx:101-104 | the connection an error reaches is its run's binding, and closing it with one timer pending keeps the invariant |
| `InsightsStream.TimerKeepsInvariant` | components/Campaigns/InsightsStream.tsx:104-107 | opening and binding the replacement keeps the invariant |
| `InsightsStream.CleanupKeepsInvariant` | components/Campaigns/InsightsStream.tsx:110 | closing the current run's binding and deactivating the run keeps the invariant |
| `InsightsStream.ActivateKeepsInvariant` | components/Campaigns/InsightsStream.tsx:82-86 | a new run after cleanup, with one fresh connection, keeps the invariant |
| `InsightsStream.LiveMetrics.constructor` | components/Campaigns/InsightsStream.tsx:74-86 | status is connecting; insights is the initial snapshot or none; lastUpdated is its timestamp, or null when there is none; exactly one connection is open, to the campaign's stream URL, and belongs to the only run |
| `InsightsStream.LiveMetrics.OnOpen` | components/Campaigns/InsightsStream.tsx:88 | an open event on a connection with handlers sets status to live, whether or not a message has arrived, and changes nothing else; on any other connection it changes nothing |
| `InsightsStream.LiveMetrics.OnMessage` | components/Campaigns/InsightsStream.tsx:90-98 | a parsed snapshot replaces insights wholesale, sets lastUpdated to its timestamp or to now when that is nullish, and sets live; a malformed message, or one on a connection without handlers, changes nothing; `null` clears insights and nothing else; a falsy primitive clears insights, stamps now and sets live |
| `InsightsStream.LiveMetrics.OnError` | components/Campaigns/InsightsStream.tsx:101-108 | status becomes reconnecting, the run's binding (the failed connection) is closed, and exactly one more timer is pending; the snapshot is kept |
| `InsightsStream.LiveMetrics.OnTimer` | components/Campaigns/InsightsStream.tsx:104-107 | sets offline while mounted; appends an open connection to the run's URL that becomes the run's binding and delivers to no handler; one timer fewer is pending |
| `InsightsStream.LiveMetrics.CleanupCurrent` | components/Campaigns/InsightsStream.tsx:110 | closes the connection the current run holds now (the replacement, once a timer fired) and marks the run inactive; the pending timers stay |
| `InsightsStream.LiveMetrics.Unmount` | components/Campaigns/InsightsStream.tsx:110 | the cleanup closes the current binding and leaves a pending timer scheduled; the snapshot, status and lastUpdated are untouched |
| `InsightsStream.LiveMetrics.ChangeId` | components/Campaigns/InsightsStream.tsx:82-111 | a different id cleans up the current run and opens one new connection with handlers to the new URL, without resetting insights, status or lastUpdated; the same id changes nothing |
| `InsightsScenarios.ExampleSession` | components/Campaigns/InsightsStream.tsx:86-107 | open, message, error, timer, then an open on the replacement give the statuses connecting, live, live, reconnecting, offline, offline; the snapshot is the message, and only the replacement is open |
| `InsightsScenarios.TimerAfterIdChange` | components/Campaigns/InsightsStream.tsx:101-111 | a timer left pending across an id change turns the new stream's indicator offline and leaves two connections open |
| `InsightsScenarios.TimerAfterUnmount` | components/Campaigns/InsightsStream.tsx:104-110 | a timer left pending across unmount opens a connection that stays open |

## Left out

- Rendering: JSX, CSS classes, icons, skeleton markup, and the pages
  `app/page.tsx`, `app/layout.tsx` and `app/campaigns/[id]/page.tsx`. They are
  presentation only.
- `CampaignDetailView.tsx` and `CampaignInsightsDashboard.tsx`. They render
  fetched data with no logic beyond optional chaining.
- `lib/services/campaign.service.ts`, `axiosInstance` and `cn`. They are thin
  wrappers over axios, clsx and tailwind-merge, whose code is not part of this
  model.
- The EventSource transport, `setTimeout` and `JSON.parse` as mechanisms. They
  become event methods, a pending-timer count and a `Payload` input. The
  callbacks run on one thread, so the event methods run one at a time.
- The 2000 ms delay. No clock is modelled; `OnTimer` is the moment the timer fires.
- `console.error` on a parse failure. It is output only.
- `Intl.NumberFormat`, the CTR/CPC/CVR percentages (`toFixed`), and
  `toLocaleString`/`Date` formatting. They involve locales and floating point.
  The two number formatters are parameters (`Formatters`), and the date is
  shown as the stored value.
- NaN. `JsValue` numbers are reals, so a NaN field (falsy, but of type number)
  cannot be written.
- The loading and refetch machinery of the react-query `useQuery` hook. `data`,
  `isLoading` and whether there is an error are plain inputs to `SelectView`,
  and the Retry button's `refetch` is not modelled.
- Utils.ExtractErrorMessage: a response body that is not an object (a string,
  say) is written as a body whose `message` and `error` are both undefined. This
  gives the result JavaScript gives.
- InsightsStream.LiveMetrics.OnMessage: a JSON array or a truthy primitive is
  written as `Parsed` of a snapshot whose fields are all undefined. This matches
  what the code then reads from it.
