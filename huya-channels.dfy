/** The Huya channels widget: its configuration normalisation and its
    update, which fetches the requested channels, sorts them by viewers and
    stores them for rendering. */
module HuyaWidget {

  import opened Wrappers
  import opened HuyaFeed

  /** What `collapse-after` becomes when it is 0 or below -1. */
  const DefaultCollapseAfter := 5

  /** The `collapse-after` setting after normalisation: -1 (never collapse)
      and positive values are kept, anything else falls back to the default. */
  function NormalizeCollapseAfter(c: int): (r: int)
    ensures r == -1 || r >= 1
    ensures c == -1 || c >= 1 ==> r == c
    ensures c == 0 || c < -1 ==> r == DefaultCollapseAfter
  {
    if c == 0 || c < -1 then DefaultCollapseAfter else c
  }

  /** Normalising an already normalised setting changes nothing. */
  lemma NormalizeIdempotent(c: int)
    ensures NormalizeCollapseAfter(NormalizeCollapseAfter(c)) == NormalizeCollapseAfter(c)
  {
  }

  class HuyaChannels {
    /** The channel logins from the configuration. */
    var channelsRequest: seq<string>
    /** The channels the last successful update stored. */
    var channels: seq<HuyaChannel>
    var collapseAfter: int

    /** A widget as the configuration loader leaves it: settings read,
        nothing fetched yet. */
    constructor (channelsRequest: seq<string>, collapseAfter: int)
      ensures this.channelsRequest == channelsRequest
      ensures this.collapseAfter == collapseAfter
      ensures channels == []
    {
      this.channelsRequest := channelsRequest;
      this.collapseAfter := collapseAfter;
      channels := [];
    }

    /** Normalises `collapseAfter`; never fails. */
    method Initialize() returns (err: Option<Error>)
      modifies this
      ensures err.None?
      ensures collapseAfter == NormalizeCollapseAfter(old(collapseAfter))
      ensures collapseAfter == -1 || collapseAfter >= 1
      ensures channelsRequest == old(channelsRequest) && channels == old(channels)
    {
      if collapseAfter == 0 || collapseAfter < -1 {
        collapseAfter := DefaultCollapseAfter;
      }
      return None;
    }

    /** One update. `fetched`, `errs` and `poolErr` are what the worker pool
        returned for `channelsRequest`; `canContinue` is the widget's policy
        for whether an update may go on after the fetch's error. When it may
        not, the stored channels are kept; otherwise they become the
        successfully fetched channels sorted by viewers. */
    method Update(
      fetched: seq<HuyaChannel>, errs: seq<Option<TaskError>>, poolErr: Option<Error>,
      canContinue: Option<Error> -> bool)
      requires poolErr.None? ==> |fetched| == |errs| == |channelsRequest|
      modifies this
      ensures channelsRequest == old(channelsRequest) && collapseAfter == old(collapseAfter)
      ensures var (result, err) := FetchOutcome(channelsRequest, fetched, errs, poolErr);
        && (!canContinue(err) ==> channels == old(channels))
        && (canContinue(err) ==>
              SortedByViewers(channels) && multiset(channels) == multiset(result))
    {
      var result, err := FetchChannelsFromHuya(channelsRequest, fetched, errs, poolErr);

      if !canContinue(err) {
        return;
      }

      var sorted := new HuyaChannel[|result|](i requires 0 <= i < |result| => result[i]);
      assert sorted[..] == result;
      SortByViewers(sorted);
      channels := sorted[..];
    }
  }

}
