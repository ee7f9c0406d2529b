/**
 * `SubsPlease.FetchLatest` of the Go API (`api/v1/models/subsplease.go`):
 * indexes the RSS items by the show name, the part of the category before
 * the first " - ", so that a later item with the same name replaces an
 * earlier one. Fetching and XML decoding are one `Result` parameter.
 */
module SubsPleaseLatest {
  import opened Wrappers
  import opened Keyed
  import ApiErrors

  /** One RSS item; the publication date is not used by the index and is left out. */
  datatype LatestItem = LatestItem(title: string, link: string, category: string)

  const Separator: string := " - "

  /** `s` has the separator at position `p`. */
  predicate SeparatorAt(s: string, p: nat)
  {
    p + |Separator| <= |s| && s[p..p + |Separator|] == Separator
  }

  /** `strings.Split(category, " - ")[0]`: everything before the first separator. */
  function ShowName(category: string): (k: string)
    ensures |k| <= |category| && k == category[..|k|]
    ensures |k| < |category| ==> SeparatorAt(category, |k|)
    decreases |category|
  {
    if |category| < |Separator| then category
    else if category[..|Separator|] == Separator then ""
    else [category[0]] + ShowName(category[1..])
  }

  /** The separator occurs nowhere in a show name. */
  lemma {:induction false} ShowNameHasNoSeparator(category: string, p: nat)
    ensures !SeparatorAt(ShowName(category), p)
    decreases |category|
  {
    var k := ShowName(category);
    if |category| >= |Separator| && category[..|Separator|] != Separator {
      var rest := category[1..];
      if p == 0 {
        if |k| >= |Separator| {
          assert k[..3] == category[..3];
        }
      } else {
        ShowNameHasNoSeparator(rest, p - 1);
        assert k[1..] == ShowName(rest);
        if p + |Separator| <= |k| {
          assert k[p..p + 3] == ShowName(rest)[p - 1..p + 2];
        }
      }
    }
  }

  /** The name is the whole category exactly when the category has no separator. */
  lemma ShowNameWhole(category: string)
    ensures ShowName(category) == category <==> forall p: nat :: !SeparatorAt(category, p)
  {
    if ShowName(category) == category {
      forall p: nat ensures !SeparatorAt(category, p) {
        ShowNameHasNoSeparator(category, p);
      }
    }
  }

  function KeyOf(item: LatestItem): string
  {
    ShowName(item.category)
  }

  /**
   * `FetchLatest`: the still-empty map with the error when fetching or
   * decoding fails; otherwise every item under its show name, the last
   * one winning.
   */
  method FetchLatest(items: Result<seq<LatestItem>, ApiErrors.GoError>)
    returns (latest: map<string, LatestItem>, err: Option<ApiErrors.GoError>)
    ensures items.Err? ==> latest == map[] && err == Some(items.error)
    ensures items.Ok? ==> latest == IndexLast(items.value, KeyOf) && err == None
  {
    latest := map[];
    if items.Err? {
      return latest, Some(items.error);
    }
    var decoded := items.value;
    for i := 0 to |decoded|
      invariant latest == IndexLast(decoded[..i], KeyOf)
    {
      assert decoded[..i + 1][..i] == decoded[..i];
      latest := latest[ShowName(decoded[i].category) := decoded[i]];
    }
    assert decoded[..|decoded|] == decoded;
    err := None;
  }

  /**
   * The index holds every item's show name, no key with a separator in it,
   * no more keys than items, and for each item the last one with its name.
   */
  lemma LatestIndexed(items: seq<LatestItem>, i: nat)
    requires i < |items|
    requires forall j :: i < j < |items| ==> KeyOf(items[j]) != KeyOf(items[i])
    ensures KeyOf(items[i]) in IndexLast(items, KeyOf)
    ensures IndexLast(items, KeyOf)[KeyOf(items[i])] == items[i]
    ensures |IndexLast(items, KeyOf)| <= |items|
    ensures forall k :: k in IndexLast(items, KeyOf) ==> KeyOf(IndexLast(items, KeyOf)[k]) == k
  {
    IndexLastAt(items, KeyOf, i);
    IndexLastSize(items, KeyOf);
    IndexLastKeyed(items, KeyOf);
  }

  /** No key of the index contains the separator. */
  lemma KeysHaveNoSeparator(items: seq<LatestItem>, k: string, p: nat)
    requires k in IndexLast(items, KeyOf)
    ensures !SeparatorAt(k, p)
  {
    IndexLastKeyed(items, KeyOf);
    ShowNameHasNoSeparator(IndexLast(items, KeyOf)[k].category, p);
  }

  /** A first character other than a space is kept and the scan moves on. */
  lemma ShowNameCons(c: char, rest: string)
    requires c != ' '
    ensures ShowName([c] + rest) == [c] + ShowName(rest)
  {
    var s := [c] + rest;
    assert s[1..] == rest;
    if |s| >= |Separator| {
      assert s[..|Separator|][0] == c;
    }
  }

  /** A name without spaces followed by the separator is cut off before it. */
  lemma {:induction false} ShowNameBefore(name: string, rest: string)
    requires forall i :: 0 <= i < |name| ==> name[i] != ' '
    ensures ShowName(name + Separator + rest) == name
    decreases |name|
  {
    if |name| == 0 {
      assert (name + Separator + rest)[..3] == Separator;
    } else {
      var tail := name[1..];
      assert name + Separator + rest == [name[0]] + (tail + Separator + rest);
      ShowNameCons(name[0], tail + Separator + rest);
      ShowNameBefore(tail, rest);
      assert name == [name[0]] + tail;
    }
  }

  /** A name without spaces has no separator and is kept whole. */
  lemma {:induction false} ShowNameWithoutSpaces(name: string)
    requires forall i :: 0 <= i < |name| ==> name[i] != ' '
    ensures ShowName(name) == name
    decreases |name|
  {
    if |name| >= |Separator| {
      var tail := name[1..];
      assert name == [name[0]] + tail;
      ShowNameCons(name[0], tail);
      ShowNameWithoutSpaces(tail);
    }
  }

  /** The RSS category "Gintama - 720" is filed under "Gintama", as is the bare "Gintama". */
  lemma ShowNameExamples()
    ensures ShowName("Gintama - 720") == "Gintama"
    ensures ShowName("Gintama") == "Gintama"
  {
    assert "Gintama - 720" == "Gintama" + Separator + "720";
    ShowNameBefore("Gintama", "720");
    ShowNameWithoutSpaces("Gintama");
  }
}
