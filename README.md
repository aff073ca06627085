# Huya channels: feed aggregation, viewer sort and widget update

This project models the Huya live-streaming part of the glance dashboard. It covers three things:

- The feed side (`internal/feed/huya.go`). One step maps a decoded channel page into a `HuyaChannel` record. Another aggregates the worker pool's per-channel results into one list plus one error (no content, partial content carrying the failure count, or nil). The third sorts channels by viewer count.
- The widget side (`internal/widget/huya-channels.go`). `Initialize` normalises the `collapse-after` setting. `Update` fetches, sorts and stores the channels.

Modules:

- `Wrappers` (`wrappers.dfy`): `Option`. Go's nil-able `error` is `Option<E>`, with `None` for nil.
- `HuyaFeed` (`huya.dfy`): the channel record, the decoded page metadata, the per-channel task, the in-place sort on an `array<HuyaChannel>`, and the aggregation loop. The aggregation loop is specified by the functions `Successes`, `FailedCount`, `SuccessIndices`, `Classify` and `FetchOutcome`, with lemmas about them.
- `HuyaWidget` (`huya-channels.dfy`): the widget as a class with the fields `channelsRequest`, `channels` and `collapseAfter`.

The worker pool that runs one task per channel is not part of this model. Its outputs are parameters of the aggregation:

- `channels`: the per-channel records.
- `errs`: the per-channel error slots, index-aligned with the requested logins.
- `poolErr`: the pool's own error.

Likewise, the HTTP fetch and the HTML/JSON decoding of a page are not modelled. Their outcome is a `PageResponse` parameter: a transport failure, a decode failure, or the decoded `StreamMetadata`.

The model follows the code in a few places where one might expect otherwise:

- An empty request (no channel logins) produces `ErrNoContent`, not success. This is because the failure count `0` equals the number of requested channels `0` (`internal/feed/huya.go:110`). `EmptyRequestIsNoContent` states this.
- The record field `found` is Go's `HuyaChannel.Exists`. It is renamed because `exists` is a reserved word in Dafny.
- A channel's `Name` is taken from the page's `sIntroduction` field, not from `sNick`.
- On both error paths of the per-channel task (transport and decoding), the record returned alongside the error carries only the lower-cased room id.

## Model

| member | source | states |
|---|---|---|
| `HuyaFeed.FetchChannelFromHuyaTask` | internal/feed/huya.go:51-86 | The room id is always the lower-cased login. The error is nil exactly when the page was decoded, and `found` is set exactly then. On a transport or decode error, the record carries only the room id and the error is passed on. On success, `isLive` holds iff `LiveStatus == 2`, and name, avatar, viewers, category, slug and live-since are taken from the metadata. |
| `HuyaFeed.ToLower` | internal/feed/huya.go:53 | The lower-cased login has the same length and no upper-case ASCII letter. Each character is lowered on its own: `A`-`Z` become `a`-`z`, and every other character is kept (`LowerChar`). |
| `HuyaFeed.ToLowerIdempotent` | internal/feed/huya.go:53 | Lower-casing an already lower-cased login changes nothing. |
| `HuyaFeed.SortByViewers` | internal/feed/huya.go:28-32 | Afterwards viewer counts never increase from index 0 to the end, and the array holds the same multiset of channels. Nothing is said about where ties go. |
| `HuyaFeed.SortedViewersDetermined` | internal/feed/huya.go:28-32 | Any two viewer-sorted arrangements of the same channels have the same viewer count at every position, so an unstable sort can differ only among channels with equal counts. |
| `HuyaFeed.FetchChannelsFromHuya` | internal/feed/huya.go:88-119 | The returned pair is `FetchOutcome` of the pool's outputs. A pool error is returned unchanged, with an empty list. Otherwise the list is exactly the channels whose error slot is nil, in index order, and the error is the three-way classification of the failure count against the number of requested logins. |
| `HuyaFeed.Classify` | internal/feed/huya.go:110-118 | `ErrNoContent` iff failed equals requested. `ErrPartialContent` carrying exactly `failed` iff `0 < failed` and failed differs from requested. nil iff nothing failed and something was requested. Never a pool error. |
| `HuyaFeed.SuccessIndicesExact` | internal/feed/huya.go:100-108 | The kept indices are exactly the indices whose error slot is nil, in strictly increasing order. |
| `HuyaFeed.SuccessesAtIndices` | internal/feed/huya.go:100-108 | The kept list has one entry per kept index. Entry k is the channel at the k-th kept index. |
| `HuyaFeed.FailedPlusSucceeded` | internal/feed/huya.go:98-108 | Failure count plus kept-list length equals the number of slots. |
| `HuyaFeed.FailedCountIsNonNilCount` | internal/feed/huya.go:98-107 | The failure count equals the number of slots minus the number of kept indices, and the kept indices are exactly the nil slots. So the count is the number of non-nil slots. |
| `HuyaFeed.FailedCountBounds` | internal/feed/huya.go:98-107 | The failure count is at most the number of slots. It is 0 iff every slot is nil, and equals the number of slots iff every slot is non-nil. |
| `HuyaFeed.AllSucceeded` | internal/feed/huya.go:100-108 | With every error slot nil, the kept list is the whole channel list in order. |
| `HuyaFeed.FetchOutcomeCases` | internal/feed/huya.go:98-118 | Without a pool error: `ErrNoContent` iff every slot failed, and then the list is empty. nil iff something was requested and every slot succeeded, and then the list is all channels. `ErrPartialContent` iff `0 < failed < requested`; then it carries exactly `failed`, and the list is non-empty and shorter than the input. The list length plus failures equals the request size. |
| `HuyaFeed.EmptyRequestIsNoContent` | internal/feed/huya.go:110-112 | With zero requested channels, the fetch returns an empty list and `ErrNoContent`. |
| `HuyaWidget.NormalizeCollapseAfter` | internal/widget/huya-channels.go:22-24 | The result is -1 or at least 1. Values -1 and positive are kept; 0 and values below -1 become 5. |
| `HuyaWidget.NormalizeIdempotent` | internal/widget/huya-channels.go:22-24 | Normalising twice gives the same result as normalising once. |
| `HuyaWidget.HuyaChannels.constructor` | internal/widget/huya-channels.go:12-17 | A widget as configured: the requested logins and `collapse-after` as given, no channels stored. |
| `HuyaWidget.HuyaChannels.Initialize` | internal/widget/huya-channels.go:19-27 | Always returns nil. `collapseAfter` becomes its normalised value (-1 or at least 1). Nothing else changes. |
| `HuyaWidget.HuyaChannels.Update` | internal/widget/huya-channels.go:29-38 | If the continue policy rejects the fetch's error, the stored channels are unchanged. Otherwise they become the successfully fetched channels, sorted by viewers (non-increasing) and a permutation of the fetch's list. The settings are unchanged. |

## Left out

- The worker pool (`newJob`, `withWorkers(10)`, `workerPoolDo`, `internal/feed/huya.go:91-92`) is not part of this model. Its outputs are taken as given, index-aligned sequences plus its own error. Concurrency, the worker count and the pool's fault handling are not modelled.
- HTTP: building the request, the user-agent header and `textFromRequest` with the default client. The transport outcome is a parameter.
- Scraping and decoding: the regular expression over the page and `json.Unmarshal`. Their panics are out too: no regex match, and a missing `roomInfo` or `tLiveInfo`. A decoded page is given as a `StreamMetadata` value, a decode failure as `UnmarshalFailed`.
- `time.Unix`: `liveSince` is kept as the Unix second count (`Some(startTime)`). `None` stands for Go's zero `time.Time`.
- ToLower: lowers ASCII `A`-`Z` only and keeps every other character. Unicode case mapping (non-ASCII letters, special cases) is not modelled.
- Error texts: the `fmt.Errorf` wrapping of decode errors and of `ErrPartialContent` keeps only the error kind and the failure count, not the message text.
- Logging: `slog.Warn` per failed channel is a side effect only.
- Widget plumbing: `withTitle("Huya Channels")`, `withCacheDuration(10 minutes)`, `Render` and the template.
- Update: `canContinueUpdateAfterHandlingErr` is a function parameter from the fetch's error to a boolean. Its effects on the widget's base state are not modelled. `Update` takes the pool's outputs for its own request instead of running the fetch.
- SortByViewers: the library sort (`sort.Slice`) is modelled by a selection sort with the same contract (non-increasing order and permutation). Go's pattern-defeating quicksort is not reproduced, so the particular order it gives to ties is not either.
- Update: Go sorts the fetched slice in place and stores that slice. The model sorts a fresh array holding the fetched list and stores its contents. No other holder of the slice exists, so no aliasing is lost.
- Integer widths: the failure count is bounded by the number of requested channels, and viewer counts and status codes are only copied and compared. No 64-bit overflow can arise, and integers are unbounded.
