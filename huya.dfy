/** The Huya feed: the channel record, the viewer-count sort, the mapping of
    one decoded page into a channel record, and the aggregation of the
    per-channel outcomes produced by the worker pool. */
module HuyaFeed {

  import opened Wrappers

  /** One channel as the widget shows it. `found` is the source's `Exists`
      field (`exists` is a reserved word here). `liveSince` is None for Go's
      zero `time.Time` and Some(s) for the instant `s` seconds after the Unix
      epoch. */
  datatype HuyaChannel = HuyaChannel(
    roomId: string,
    found: bool,
    name: string,
    avatarUrl: string,
    isLive: bool,
    liveSince: Option<int>,
    category: string,
    categorySlug: string,
    viewersCount: int)

  /** The fields of the page's embedded stream metadata that the mapping uses,
      already decoded (`roomInfo` and `roomInfo.tLiveInfo` flattened). */
  datatype StreamMetadata = StreamMetadata(
    liveStatus: int,
    nick: string,
    userCount: int,
    avatar180: string,
    introduction: string,
    gameFullName: string,
    gameHostName: string,
    startTime: int)

  /** What fetching and decoding one channel page gave: a transport failure,
      a failure to decode the embedded metadata, or the decoded metadata. */
  datatype PageResponse =
    | TransportFailed(reason: string)
    | UnmarshalFailed(reason: string)
    | Decoded(metadata: StreamMetadata)

  /** A per-channel error, as stored in the worker pool's error slots. */
  datatype TaskError =
    | Transport(reason: string)
    | Unmarshal(reason: string)

  /** The error a whole fetch returns: the two aggregate sentinels, or an
      error of the worker pool itself, passed through unchanged. */
  datatype Error =
    | ErrNoContent
    | ErrPartialContent(failed: nat)
    | PoolError(reason: string)

  /** The status code under which the page reports a channel as live. */
  const LiveStatusLive := 2

  // ---------------------------------------------------------------------
  // Room ids

  /** An upper-case ASCII letter becomes its lower-case letter; every other
      character is kept. */
  function LowerChar(c: char): (r: char)
    ensures !('A' <= r <= 'Z')
    ensures 'A' <= c <= 'Z' ==> r as int == c as int - 'A' as int + 'a' as int
    ensures !('A' <= c <= 'Z') ==> r == c
  {
    if 'A' <= c <= 'Z' then (c - 'A' + 'a') as char else c
  }

  /** Lower-casing of a channel login (ASCII letters only). */
  function ToLower(s: string): (r: string)
    ensures |r| == |s|
    ensures forall i :: 0 <= i < |r| ==> !('A' <= r[i] <= 'Z')
    ensures forall i :: 0 <= i < |s| ==> r[i] == LowerChar(s[i])
  {
    seq(|s|, i requires 0 <= i < |s| => LowerChar(s[i]))
  }

  /** Lower-casing an already lower-cased login changes nothing. */
  lemma ToLowerIdempotent(s: string)
    ensures ToLower(ToLower(s)) == ToLower(s)
  {
    assert forall i :: 0 <= i < |s| ==> ToLower(ToLower(s))[i] == ToLower(s)[i];
  }

  /** A record carrying only a room id, every other field at its zero value. */
  function RoomOnly(roomId: string): (c: HuyaChannel)
    ensures c.roomId == roomId && !c.found && !c.isLive
    ensures c.name == c.avatarUrl == c.category == c.categorySlug == ""
    ensures c.liveSince.None? && c.viewersCount == 0
  {
    HuyaChannel(roomId, false, "", "", false, None, "", "", 0)
  }

  // ---------------------------------------------------------------------
  // Fetching one channel

  /** The per-channel task, over the already-fetched-and-decoded page. The
      record starts with only the lower-cased room id; on either error path
      it is returned as it is, together with the error; on success the
      fields are filled in from the metadata one by one. */
  method FetchChannelFromHuyaTask(channel: string, response: PageResponse)
    returns (result: HuyaChannel, err: Option<TaskError>)
    ensures result.roomId == ToLower(channel)
    ensures err.None? <==> response.Decoded?
    ensures result.found <==> err.None?
    ensures response.TransportFailed? ==>
      err == Some(Transport(response.reason)) && result == RoomOnly(ToLower(channel))
    ensures response.UnmarshalFailed? ==>
      err == Some(Unmarshal(response.reason)) && result == RoomOnly(ToLower(channel))
    ensures response.Decoded? ==>
      var m := response.metadata;
      && (result.isLive <==> m.liveStatus == LiveStatusLive)
      && result.name == m.introduction
      && result.avatarUrl == m.avatar180
      && result.viewersCount == m.userCount
      && result.category == m.gameFullName
      && result.categorySlug == m.gameHostName
      && result.liveSince == Some(m.startTime)
  {
    result := RoomOnly(ToLower(channel));

    match response {
      case TransportFailed(reason) =>
        return result, Some(Transport(reason));
      case UnmarshalFailed(reason) =>
        return result, Some(Unmarshal(reason));
      case Decoded(m) =>
        result := result.(found := true);
        result := result.(name := m.introduction);
        result := result.(avatarUrl := m.avatar180);
        result := result.(isLive := m.liveStatus == LiveStatusLive);
        result := result.(viewersCount := m.userCount);
        result := result.(category := m.gameFullName);
        result := result.(categorySlug := m.gameHostName);
        result := result.(liveSince := Some(m.startTime));
        err := None;
    }
  }

  // ---------------------------------------------------------------------
  // Sorting by viewers

  /** Viewer counts never increase from the front of `s` to its back. */
  ghost predicate SortedByViewers(s: seq<HuyaChannel>) {
    forall p, q :: 0 <= p < q < |s| ==> s[p].viewersCount >= s[q].viewersCount
  }

  /** The channel column of viewer counts. */
  function Viewers(s: seq<HuyaChannel>): (v: seq<int>)
    ensures |v| == |s|
    ensures forall k :: 0 <= k < |s| ==> v[k] == s[k].viewersCount
  {
    seq(|s|, k requires 0 <= k < |s| => s[k].viewersCount)
  }

  /** An index in `a[lo..]` holding a channel with the most viewers there. */
  method IndexOfMostViewers(a: array<HuyaChannel>, lo: nat) returns (m: nat)
    requires lo < a.Length
    ensures lo <= m < a.Length
    ensures forall k :: lo <= k < a.Length ==> a[k].viewersCount <= a[m].viewersCount
  {
    m := lo;
    var k := lo + 1;
    while k < a.Length
      invariant lo <= m < k <= a.Length
      invariant forall j :: lo <= j < k ==> a[j].viewersCount <= a[m].viewersCount
    {
      if a[k].viewersCount > a[m].viewersCount {
        m := k;
      }
      k := k + 1;
    }
  }

  /** Exchanges two channels of `a`. */
  method SwapChannels(a: array<HuyaChannel>, i: nat, j: nat)
    requires i < a.Length && j < a.Length
    modifies a
    ensures a[i] == old(a[j]) && a[j] == old(a[i])
    ensures forall k :: 0 <= k < a.Length && k != i && k != j ==> a[k] == old(a[k])
    ensures multiset(a[..]) == old(multiset(a[..]))
  {
    a[i], a[j] := a[j], a[i];
  }

  /** Sorts the channels in place into non-increasing viewer count. Like
      the library sort it stands for, it is not stable: nothing is said
      about the relative order of channels with equal viewer counts. */
  method SortByViewers(a: array<HuyaChannel>)
    modifies a
    ensures SortedByViewers(a[..])
    ensures multiset(a[..]) == old(multiset(a[..]))
  {
    var i := 0;
    while i < a.Length
      invariant 0 <= i <= a.Length
      invariant forall p, q :: 0 <= p < q < i ==> a[p].viewersCount >= a[q].viewersCount
      invariant forall p, q :: 0 <= p < i <= q < a.Length ==> a[p].viewersCount >= a[q].viewersCount
      invariant multiset(a[..]) == old(multiset(a[..]))
    {
      var m := IndexOfMostViewers(a, i);
      SwapChannels(a, i, m);
      i := i + 1;
    }
  }

  /** Integers that never increase from front to back. */
  ghost predicate NonIncreasing(v: seq<int>) {
    forall p, q :: 0 <= p < q < |v| ==> v[p] >= v[q]
  }

  lemma ViewersAppend(s: seq<HuyaChannel>, t: seq<HuyaChannel>)
    ensures Viewers(s + t) == Viewers(s) + Viewers(t)
  {
    assert forall k :: 0 <= k < |s + t| ==> Viewers(s + t)[k] == (Viewers(s) + Viewers(t))[k];
  }

  /** `t` without its element at index `j`. */
  function RemoveAt<T>(t: seq<T>, j: nat): (r: seq<T>)
    requires j < |t|
    ensures |r| == |t| - 1
  {
    t[..j] + t[j + 1..]
  }

  lemma RemoveAtMultiset<T>(t: seq<T>, j: nat)
    requires j < |t|
    ensures multiset(t) == multiset(RemoveAt(t, j)) + multiset{t[j]}
  {
    assert t == t[..j] + [t[j]] + t[j + 1..];
  }

  lemma ViewersRemoveAt(t: seq<HuyaChannel>, j: nat)
    requires j < |t|
    ensures Viewers(RemoveAt(t, j)) == RemoveAt(Viewers(t), j)
  {
    ViewersAppend(t[..j], t[j + 1..]);
    assert Viewers(t[..j]) == Viewers(t)[..j];
    assert Viewers(t[j + 1..]) == Viewers(t)[j + 1..];
  }

  lemma MultisetCancel<T>(a: multiset<T>, b: multiset<T>, e: T)
    requires a + multiset{e} == b + multiset{e}
    ensures a == b
  {
    forall x ensures a[x] == b[x] {
      assert (a + multiset{e})[x] == (b + multiset{e})[x];
    }
  }

  /** Rearranging channels rearranges their viewer counts. */
  lemma {:induction false} ViewersMultiset(s: seq<HuyaChannel>, t: seq<HuyaChannel>)
    requires multiset(s) == multiset(t)
    ensures multiset(Viewers(s)) == multiset(Viewers(t))
    decreases |s|
  {
    if |s| == 0 {
      assert |t| == |multiset(t)| == 0;
    } else {
      assert s[0] in multiset(t);
      var j :| 0 <= j < |t| && t[j] == s[0];
      RemoveAtMultiset(t, j);
      RemoveAtMultiset(s, 0);
      assert RemoveAt(s, 0) == s[1..];
      MultisetCancel(multiset(RemoveAt(t, j)), multiset(s[1..]), s[0]);
      ViewersMultiset(s[1..], RemoveAt(t, j));
      ViewersRemoveAt(t, j);
      RemoveAtMultiset(Viewers(t), j);
      ViewersRemoveAt(s, 0);
      RemoveAtMultiset(Viewers(s), 0);
      assert RemoveAt(Viewers(s), 0) == Viewers(s)[1..];
    }
  }

  /** Two non-increasing arrangements of the same integers are equal. */
  lemma {:induction false} NonIncreasingUnique(x: seq<int>, y: seq<int>)
    requires NonIncreasing(x) && NonIncreasing(y)
    requires multiset(x) == multiset(y)
    ensures x == y
    decreases |x|
  {
    assert |y| == |multiset(y)| == |multiset(x)| == |x|;
    if |x| > 0 {
      HeadIsLargest(x, y[0]);
      HeadIsLargest(y, x[0]);
      assert x[0] == y[0];
      assert x == [x[0]] + x[1..];
      assert y == [y[0]] + y[1..];
      assert multiset(x) == multiset{x[0]} + multiset(x[1..]);
      assert multiset(y) == multiset{y[0]} + multiset(y[1..]);
      forall e ensures multiset(x[1..])[e] == multiset(y[1..])[e] {
        assert multiset(x)[e] == multiset{x[0]}[e] + multiset(x[1..])[e];
        assert multiset(y)[e] == multiset{y[0]}[e] + multiset(y[1..])[e];
      }
      assert multiset(x[1..]) == multiset(y[1..]);
      NonIncreasingTail(x);
      NonIncreasingTail(y);
      NonIncreasingUnique(x[1..], y[1..]);
    }
  }

  lemma HeadIsLargest(x: seq<int>, e: int)
    requires NonIncreasing(x) && e in multiset(x)
    ensures |x| > 0 && e <= x[0]
  {
    var i :| 0 <= i < |x| && x[i] == e;
    if i > 0 {
      assert x[0] >= x[i];
    }
  }

  lemma NonIncreasingTail(x: seq<int>)
    requires NonIncreasing(x) && |x| > 0
    ensures NonIncreasing(x[1..])
  {
    forall p, q | 0 <= p < q < |x| - 1
      ensures x[1..][p] >= x[1..][q]
    {
      assert x[1..][p] == x[p + 1] && x[1..][q] == x[q + 1];
    }
  }

  /** The sort is unstable, but what it leaves visible is determined: any
      two viewer-sorted arrangements of the same channels have the same
      viewer count at every position, so only ties can differ. */
  lemma SortedViewersDetermined(s: seq<HuyaChannel>, t: seq<HuyaChannel>)
    requires SortedByViewers(s) && SortedByViewers(t)
    requires multiset(s) == multiset(t)
    ensures Viewers(s) == Viewers(t)
  {
    ViewersMultiset(s, t);
    NonIncreasingUnique(Viewers(s), Viewers(t));
  }

  // ---------------------------------------------------------------------
  // Aggregating the per-channel outcomes

  /** The channels whose error slot is nil, in increasing index order. */
  function Successes(channels: seq<HuyaChannel>, errs: seq<Option<TaskError>>): seq<HuyaChannel>
    requires |channels| == |errs|
    decreases |channels|
  {
    if |channels| == 0 then []
    else
      var n := |channels| - 1;
      Successes(channels[..n], errs[..n]) + (if errs[n].None? then [channels[n]] else [])
  }

  /** The number of non-nil error slots. */
  function FailedCount(errs: seq<Option<TaskError>>): nat
    decreases |errs|
  {
    if |errs| == 0 then 0
    else
      var n := |errs| - 1;
      FailedCount(errs[..n]) + (if errs[n].Some? then 1 else 0)
  }

  /** The indices whose error slot is nil, in increasing order. */
  function SuccessIndices(errs: seq<Option<TaskError>>): seq<nat>
    decreases |errs|
  {
    if |errs| == 0 then []
    else
      var n := |errs| - 1;
      SuccessIndices(errs[..n]) + (if errs[n].None? then [n] else [])
  }

  /** The three-way classification of a fetch of `requested` channels of
      which `failed` failed. With nothing requested, `failed == requested`
      holds and the fetch counts as having no content. */
  function Classify(failed: nat, requested: nat): (e: Option<Error>)
    ensures e.None? <==> failed != requested && failed == 0
    ensures e == Some(ErrNoContent) <==> failed == requested
    ensures e.Some? && e.value.ErrPartialContent? <==> failed != requested && failed > 0
    ensures e.Some? && e.value.ErrPartialContent? ==> e.value.failed == failed
    ensures e.Some? ==> !e.value.PoolError?
  {
    if failed == requested then Some(ErrNoContent)
    else if failed > 0 then Some(ErrPartialContent(failed))
    else None
  }

  /** What the caller of the Huya fetch receives, given the worker pool's
      index-aligned outputs and the pool's own error. */
  function FetchOutcome(
    channelLogins: seq<string>, channels: seq<HuyaChannel>,
    errs: seq<Option<TaskError>>, poolErr: Option<Error>
  ): (seq<HuyaChannel>, Option<Error>)
    requires poolErr.None? ==> |channels| == |errs| == |channelLogins|
  {
    if poolErr.Some? then ([], poolErr)
    else (Successes(channels, errs), Classify(FailedCount(errs), |channelLogins|))
  }

  /** The aggregation step of the Huya fetch. `channels`, `errs` and
      `poolErr` are what the worker pool returned for `channelLogins`. */
  method FetchChannelsFromHuya(
    channelLogins: seq<string>, channels: seq<HuyaChannel>,
    errs: seq<Option<TaskError>>, poolErr: Option<Error>
  ) returns (result: seq<HuyaChannel>, err: Option<Error>)
    requires poolErr.None? ==> |channels| == |errs| == |channelLogins|
    ensures poolErr.Some? ==> result == [] && err == poolErr
    ensures (result, err) == FetchOutcome(channelLogins, channels, errs, poolErr)
  {
    result := [];

    if poolErr.Some? {
      return result, poolErr;
    }

    var failed: nat := 0;
    var i := 0;
    while i < |channels|
      invariant 0 <= i <= |channels|
      invariant failed == FailedCount(errs[..i])
      invariant result == Successes(channels[..i], errs[..i])
    {
      assert channels[..i + 1][..i] == channels[..i];
      assert errs[..i + 1][..i] == errs[..i];
      if errs[i].Some? {
        failed := failed + 1;
        i := i + 1;
        continue;
      }
      result := result + [channels[i]];
      i := i + 1;
    }
    assert channels[..i] == channels;
    assert errs[..i] == errs;

    if failed == |channelLogins| {
      return result, Some(ErrNoContent);
    }

    if failed > 0 {
      return result, Some(ErrPartialContent(failed));
    }

    return result, None;
  }

  // ---------------------------------------------------------------------
  // Lemmas about the aggregation

  lemma {:induction false} SuccessIndicesValid(errs: seq<Option<TaskError>>)
    ensures forall k :: 0 <= k < |SuccessIndices(errs)| ==>
      SuccessIndices(errs)[k] < |errs| && errs[SuccessIndices(errs)[k]].None?
  {
    if |errs| > 0 {
      var n := |errs| - 1;
      SuccessIndicesValid(errs[..n]);
    }
  }

  lemma {:induction false} SuccessIndicesComplete(errs: seq<Option<TaskError>>)
    ensures forall i :: 0 <= i < |errs| && errs[i].None? ==> i in SuccessIndices(errs)
  {
    if |errs| > 0 {
      var n := |errs| - 1;
      SuccessIndicesComplete(errs[..n]);
      forall i | 0 <= i < n && errs[i].None? ensures i in SuccessIndices(errs) {
        assert errs[..n][i] == errs[i];
      }
    }
  }

  lemma {:induction false} SuccessIndicesIncreasing(errs: seq<Option<TaskError>>)
    ensures forall j, k :: 0 <= j < k < |SuccessIndices(errs)| ==>
      SuccessIndices(errs)[j] < SuccessIndices(errs)[k]
  {
    if |errs| > 0 {
      var n := |errs| - 1;
      SuccessIndicesIncreasing(errs[..n]);
      SuccessIndicesValid(errs[..n]);
    }
  }

  /** The successful indices are exactly the nil error slots, in strictly
      increasing order. */
  lemma {:induction false} SuccessIndicesExact(errs: seq<Option<TaskError>>)
    ensures forall k :: 0 <= k < |SuccessIndices(errs)| ==>
      SuccessIndices(errs)[k] < |errs| && errs[SuccessIndices(errs)[k]].None?
    ensures forall i :: 0 <= i < |errs| && errs[i].None? ==> i in SuccessIndices(errs)
    ensures forall j, k :: 0 <= j < k < |SuccessIndices(errs)| ==>
      SuccessIndices(errs)[j] < SuccessIndices(errs)[k]
  {
    SuccessIndicesValid(errs);
    SuccessIndicesComplete(errs);
    SuccessIndicesIncreasing(errs);
  }

  /** The returned list is the channels at the successful indices. */
  lemma {:induction false} SuccessesAtIndices(channels: seq<HuyaChannel>, errs: seq<Option<TaskError>>)
    requires |channels| == |errs|
    ensures |Successes(channels, errs)| == |SuccessIndices(errs)|
    ensures forall k :: 0 <= k < |SuccessIndices(errs)| ==>
      SuccessIndices(errs)[k] < |channels| &&
      Successes(channels, errs)[k] == channels[SuccessIndices(errs)[k]]
  {
    if |channels| > 0 {
      var n := |channels| - 1;
      SuccessesAtIndices(channels[..n], errs[..n]);
      SuccessIndicesValid(errs[..n]);
    }
  }

  /** Every slot is counted exactly once: as a failure or as a success. */
  lemma {:induction false} FailedPlusSucceeded(channels: seq<HuyaChannel>, errs: seq<Option<TaskError>>)
    requires |channels| == |errs|
    ensures FailedCount(errs) + |Successes(channels, errs)| == |channels|
  {
    if |channels| > 0 {
      var n := |channels| - 1;
      FailedPlusSucceeded(channels[..n], errs[..n]);
    }
  }

  /** The failure count is the number of slots that are not kept: together
      with the kept indices, which are exactly the nil slots, it accounts
      for every slot once. */
  lemma {:induction false} FailedCountIsNonNilCount(errs: seq<Option<TaskError>>)
    ensures FailedCount(errs) == |errs| - |SuccessIndices(errs)|
    ensures forall i :: 0 <= i < |errs| && errs[i].None? ==> i in SuccessIndices(errs)
    ensures forall k :: 0 <= k < |SuccessIndices(errs)| ==>
      SuccessIndices(errs)[k] < |errs| && errs[SuccessIndices(errs)[k]].None?
  {
    SuccessIndicesValid(errs);
    SuccessIndicesComplete(errs);
    if |errs| > 0 {
      var n := |errs| - 1;
      FailedCountIsNonNilCount(errs[..n]);
    }
  }

  /** The failure count is the number of non-nil error slots: it is zero
      exactly when every slot is nil, and full exactly when none is. */
  lemma {:induction false} FailedCountBounds(errs: seq<Option<TaskError>>)
    ensures FailedCount(errs) <= |errs|
    ensures FailedCount(errs) == 0 <==> forall i :: 0 <= i < |errs| ==> errs[i].None?
    ensures FailedCount(errs) == |errs| <==> forall i :: 0 <= i < |errs| ==> errs[i].Some?
  {
    if |errs| > 0 {
      var n := |errs| - 1;
      FailedCountBounds(errs[..n]);
      assert forall i :: 0 <= i < n ==> errs[..n][i] == errs[i];
    }
  }

  /** The three outcomes of a fetch whose worker pool did not itself fail,
      in terms of the per-channel error slots. */
  lemma FetchOutcomeCases(
    channelLogins: seq<string>, channels: seq<HuyaChannel>, errs: seq<Option<TaskError>>)
    requires |channels| == |errs| == |channelLogins|
    ensures var (result, err) := FetchOutcome(channelLogins, channels, errs, None);
      && |result| + FailedCount(errs) == |channelLogins|
      && (err == Some(ErrNoContent) <==> forall i :: 0 <= i < |errs| ==> errs[i].Some?)
      && ((forall i :: 0 <= i < |errs| ==> errs[i].Some?) ==> result == [])
      && (err.None? <==> |errs| > 0 && forall i :: 0 <= i < |errs| ==> errs[i].None?)
      && (err.None? ==> result == channels)
      && (err.Some? && err.value.ErrPartialContent? <==>
            0 < FailedCount(errs) < |channelLogins|)
      && (err.Some? && err.value.ErrPartialContent? ==>
            err.value.failed == FailedCount(errs) && 0 < |result| < |channels|)
  {
    FailedPlusSucceeded(channels, errs);
    FailedCountBounds(errs);
    if FailedCount(errs) == 0 {
      AllSucceeded(channels, errs);
    }
  }

  /** With every slot nil, every channel is returned, in order. */
  lemma {:induction false} AllSucceeded(channels: seq<HuyaChannel>, errs: seq<Option<TaskError>>)
    requires |channels| == |errs|
    requires forall i :: 0 <= i < |errs| ==> errs[i].None?
    ensures Successes(channels, errs) == channels
  {
    if |channels| > 0 {
      var n := |channels| - 1;
      AllSucceeded(channels[..n], errs[..n]);
      assert channels[..n] + [channels[n]] == channels;
    }
  }

  /** Nothing requested: the fetch reports no content, not success. */
  lemma EmptyRequestIsNoContent()
    ensures FetchOutcome([], [], [], None) == ([], Some(ErrNoContent))
  {
  }

}
