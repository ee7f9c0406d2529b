/**
 * `AltTitle.FetchAltTitles` of the Go API (`api/v1/models/alt_title.go`):
 * reads the whole `alt_titles` collection and indexes it by media id, the
 * last decoded document winning. Creating the index, the find and the
 * decoding are one `Result` parameter.
 */
module AltTitleModel {
  import opened Wrappers
  import opened Keyed
  import ApiErrors
  import AniListModels

  type AltTitles = AniListModels.AltTitles

  function MediaIdOf(item: AltTitles): int
  {
    item.mediaId
  }

  /** The empty map with the error on any database failure, else the index. */
  method FetchAltTitles(decoded: Result<seq<AltTitles>, ApiErrors.GoError>)
    returns (final: map<int, AltTitles>, err: Option<ApiErrors.GoError>)
    ensures decoded.Err? ==> final == map[] && err == Some(decoded.error)
    ensures decoded.Ok? ==> final == IndexLast(decoded.value, MediaIdOf) && err == None
  {
    if decoded.Err? {
      return map[], Some(decoded.error);
    }
    var items := decoded.value;
    final := map[];
    for i := 0 to |items|
      invariant final == IndexLast(items[..i], MediaIdOf)
    {
      assert items[..i + 1][..i] == items[..i];
      final := final[items[i].mediaId := items[i]];
    }
    assert items[..|items|] == items;
    err := None;
  }

  /**
   * Each media id maps to a document with that id, every decoded id is a
   * key, there are no more keys than documents, and among documents with
   * one id the last decoded is kept.
   */
  lemma AltTitlesIndexed(items: seq<AltTitles>, i: nat)
    requires i < |items|
    requires forall j :: i < j < |items| ==> items[j].mediaId != items[i].mediaId
    ensures items[i].mediaId in IndexLast(items, MediaIdOf)
    ensures IndexLast(items, MediaIdOf)[items[i].mediaId] == items[i]
    ensures |IndexLast(items, MediaIdOf)| <= |items|
    ensures forall id :: id in IndexLast(items, MediaIdOf) ==> IndexLast(items, MediaIdOf)[id].mediaId == id
  {
    IndexLastAt(items, MediaIdOf, i);
    IndexLastSize(items, MediaIdOf);
    IndexLastKeyed(items, MediaIdOf);
  }

  /** The fixture `{1, ["gintama"]}` yields exactly `{1: {1, ["gintama"]}}`. */
  method GintamaExample() returns (final: map<int, AltTitles>, err: Option<ApiErrors.GoError>)
    ensures final == map[1 := AniListModels.AltTitles(1, ["gintama"])] && err == None
  {
    var fixture := [AniListModels.AltTitles(1, ["gintama"])];
    assert fixture[..0] == [];
    final, err := FetchAltTitles(Ok(fixture));
  }
}
