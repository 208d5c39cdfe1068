/** The `minEpisodes` filter of `get_all_shows`: the list comprehension
    that keeps the records whose `episodes_seen` is at least the threshold. */
module ShowFilter {
  import opened Wrappers
  import opened PyJson
  import opened Sequences
  import opened ShowStore

  /** `x['episodes_seen']` as a number Python can compare with an `int`:
      a missing key raises `KeyError`, a value that is neither an `int` nor
      a `bool` (which Python compares as 0 or 1) raises `TypeError`. */
  function EpisodesSeen(s: Show): (r: Result<int, PyError>)
    ensures r.Err? <==> "episodes_seen" !in s.fields || !(s.fields["episodes_seen"].JInt? || s.fields["episodes_seen"].JBool?)
    ensures r.Ok? && s.fields["episodes_seen"].JInt? ==> r.value == s.fields["episodes_seen"].i
    ensures r.Ok? && s.fields["episodes_seen"].JBool? ==> r.value == (if s.fields["episodes_seen"].b then 1 else 0)
  {
    if "episodes_seen" !in s.fields then Err(KeyError("episodes_seen"))
    else match s.fields["episodes_seen"]
      case JInt(k) => Ok(k)
      case JBool(b) => Ok(if b then 1 else 0)
      case other => Err(TypeError("'>=' not supported between instances of '" + TypeName(other) + "' and 'int'"))
  }

  /** The record passes the filter. */
  predicate Keeps(s: Show, n: int)
  {
    EpisodesSeen(s).Ok? && EpisodesSeen(s).value >= n
  }

  /** `[x for x in data if x['episodes_seen'] >= n]`: the records are tested
      in order and the first failing comparison raises. */
  function FilterMinEpisodes(shows: seq<Show>, n: int): (r: Result<seq<Show>, PyError>)
    ensures r.Ok? ==> |r.value| <= |shows|
    ensures r.Ok? ==> forall s :: s in r.value ==> s in shows
  {
    if shows == [] then Ok([])
    else match EpisodesSeen(shows[0])
      case Err(e) => Err(e)
      case Ok(k) =>
        match FilterMinEpisodes(shows[1..], n)
        case Err(e) => Err(e)
        case Ok(rest) => Ok(if k >= n then [shows[0]] + rest else rest)
  }

  /** The comprehension when `int(minEpisodes)` is given as its outcome,
      a number or the `ValueError` it raises. Python evaluates it inside the
      condition, after `x['episodes_seen']` has been looked up, so a bad
      threshold raises only once a record with that key is reached: on an
      empty store nothing is raised, and a first record without the key
      raises `KeyError` instead. */
  function FilterWithThreshold(shows: seq<Show>, threshold: Result<int, PyError>): (r: Result<seq<Show>, PyError>)
    ensures threshold.Ok? ==> r == FilterMinEpisodes(shows, threshold.value)
    ensures threshold.Err? ==> (r.Ok? <==> shows == [])
    ensures threshold.Err? && r.Ok? ==> r.value == []
    ensures threshold.Err? && shows != [] && "episodes_seen" !in shows[0].fields ==> r == Err(KeyError("episodes_seen"))
    ensures threshold.Err? && shows != [] && "episodes_seen" in shows[0].fields ==> r == Err(threshold.error)
  {
    match threshold
    case Ok(n) => FilterMinEpisodes(shows, n)
    case Err(e) =>
      if shows == [] then Ok([])
      else if "episodes_seen" !in shows[0].fields then Err(KeyError("episodes_seen"))
      else Err(e)
  }

  /** Every record can be compared. */
  predicate Comparable(shows: seq<Show>)
  {
    forall i :: 0 <= i < |shows| ==> EpisodesSeen(shows[i]).Ok?
  }

  /** The filter succeeds exactly when every record can be compared, and
      otherwise raises the error of the first record that cannot. */
  lemma {:induction false} FilterFailsOnFirstIncomparable(shows: seq<Show>, n: int)
    ensures FilterMinEpisodes(shows, n).Ok? <==> Comparable(shows)
    ensures FilterMinEpisodes(shows, n).Err? ==>
      exists i :: 0 <= i < |shows| && EpisodesSeen(shows[i]) == Err(FilterMinEpisodes(shows, n).error)
        && Comparable(shows[..i])
  {
    if shows != [] {
      FilterFailsOnFirstIncomparable(shows[1..], n);
      assert forall i :: 1 <= i < |shows| ==> shows[i] == shows[1..][i - 1];
      var r := FilterMinEpisodes(shows, n);
      if EpisodesSeen(shows[0]).Ok? && r.Err? {
        var i :| 0 <= i < |shows[1..]| && EpisodesSeen(shows[1..][i]) == Err(r.error)
          && Comparable(shows[1..][..i]);
        assert shows[..i + 1] == [shows[0]] + shows[1..][..i];
        assert EpisodesSeen(shows[i + 1]) == Err(r.error);
      } else if r.Err? {
        assert shows[..0] == [];
      }
    }
  }

  /** Soundness: every record returned passes the filter. */
  lemma {:induction false} FilterSound(shows: seq<Show>, n: int)
    requires FilterMinEpisodes(shows, n).Ok?
    ensures forall s :: s in FilterMinEpisodes(shows, n).value ==> Keeps(s, n)
  {
    if shows != [] {
      FilterSound(shows[1..], n);
    }
  }

  /** Completeness, counting duplicates: a record that passes appears as
      often as in the input, one that fails not at all. */
  lemma {:induction false} FilterComplete(shows: seq<Show>, n: int)
    requires FilterMinEpisodes(shows, n).Ok?
    ensures forall s :: multiset(FilterMinEpisodes(shows, n).value)[s] ==
                        (if Keeps(s, n) then multiset(shows)[s] else 0)
  {
    if shows != [] {
      FilterComplete(shows[1..], n);
      assert shows == [shows[0]] + shows[1..];
    }
  }

  /** Order: the result is a subsequence of the input. */
  lemma {:induction false} FilterIsSubsequence(shows: seq<Show>, n: int)
    requires FilterMinEpisodes(shows, n).Ok?
    ensures IsSubsequence(FilterMinEpisodes(shows, n).value, shows)
  {
    if shows != [] {
      FilterIsSubsequence(shows[1..], n);
    }
  }

  /** Every stored record that passes is returned. */
  lemma FilterKeepsEveryPassing(shows: seq<Show>, n: int)
    requires FilterMinEpisodes(shows, n).Ok?
    ensures forall s :: s in shows && Keeps(s, n) ==> s in FilterMinEpisodes(shows, n).value
  {
    FilterComplete(shows, n);
    forall s | s in shows && Keeps(s, n) ensures s in FilterMinEpisodes(shows, n).value {
      assert multiset(shows)[s] > 0;
    }
  }
}
