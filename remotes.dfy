/**
 * Remotes and remote catalogs, translated one way from their wire records
 * (internal/torcx/types.go:229-299).
 */
module Remotes {
  import opened Wire
  import opened Seqs

  /** An addon source: a templated URL and the armored public keys it is trusted with. */
  datatype Remote = Remote(TemplateURL: string, ArmoredKeys: seq<string>)

  /** One fetchable archive version of a remote image. */
  datatype RemoteVersion = RemoteVersion(format: string, version: string, hash: string, location: string)

  /** The versions a remote offers for one image. */
  datatype RemoteImage = RemoteImage(defaultVersion: string, name: string, versions: seq<RemoteVersion>)

  /** A parsed remote catalog, keyed by image name. */
  datatype RemoteContents = RemoteContents(Images: map<string, RemoteImage>)

  /** Translates a V0 remote: the URL is copied and the keys flattened to their armored keyrings, in order. */
  method RemoteFromJSONV0(j: RemoteV0) returns (res: Remote)
    ensures res.TemplateURL == j.BaseURL
    ensures |res.ArmoredKeys| == |j.Keys|
    ensures forall i :: 0 <= i < |j.Keys| ==> res.ArmoredKeys[i] == j.Keys[i].ArmoredKeyring
  {
    res := Remote(j.BaseURL, []);
    for k := 0 to |j.Keys|
      invariant res.TemplateURL == j.BaseURL
      invariant |res.ArmoredKeys| == k
      invariant forall i :: 0 <= i < k ==> res.ArmoredKeys[i] == j.Keys[i].ArmoredKeyring
    {
      res := res.(ArmoredKeys := res.ArmoredKeys + [j.Keys[k].ArmoredKeyring]);
    }
  }

  /** Translates one wire version record, field by field. */
  function RemoteVersionFromJSONV1(j: RemoteVersionV1): RemoteVersion
  {
    RemoteVersion(j.Format, j.Version, j.Hash, j.Location)
  }

  /** No field is lost: the translation is injective and each field lands in its namesake. */
  lemma RemoteVersionFromJSONV1Faithful(j: RemoteVersionV1, j': RemoteVersionV1)
    ensures var v := RemoteVersionFromJSONV1(j);
      v.format == j.Format && v.version == j.Version && v.hash == j.Hash && v.location == j.Location
    ensures RemoteVersionFromJSONV1(j) == RemoteVersionFromJSONV1(j') <==> j == j'
  {
  }

  /** The internal image an accepted catalog entry becomes. */
  function ToRemoteImage(im: RemoteImageV1): RemoteImage
  {
    RemoteImage(im.DefaultVersion, im.Name, Map(RemoteVersionFromJSONV1, im.Versions))
  }

  /**
   * The catalog built from `es` by visiting the entries in order, skipping
   * unnamed ones and letting each named entry overwrite its name's slot.
   */
  function Catalog(es: seq<RemoteImageV1>): map<string, RemoteImage>
  {
    if |es| == 0 then map[]
    else
      var m := Catalog(es[..|es| - 1]);
      var last := es[|es| - 1];
      if last.Name == "" then m else m[last.Name := ToRemoteImage(last)]
  }

  /** The non-empty names occurring in `es`. */
  function NamesOf(es: seq<RemoteImageV1>): set<string>
  {
    set i | 0 <= i < |es| && es[i].Name != "" :: es[i].Name
  }

  /** The catalog's keys are exactly the non-empty names of the entries: unnamed entries are dropped. */
  lemma {:induction false} CatalogKeys(es: seq<RemoteImageV1>)
    ensures Catalog(es).Keys == NamesOf(es)
  {
    if |es| > 0 {
      var init := es[..|es| - 1];
      CatalogKeys(init);
      assert forall i :: 0 <= i < |init| ==> init[i] == es[i];
      if es[|es| - 1].Name == "" {
        assert NamesOf(es) == NamesOf(init);
      } else {
        assert NamesOf(es) == NamesOf(init) + {es[|es| - 1].Name};
      }
    }
  }

  /** The entry for a name is the translation of the LAST entry carrying that name. */
  lemma {:induction false} CatalogLastWins(es: seq<RemoteImageV1>, i: nat)
    requires i < |es| && es[i].Name != ""
    requires forall k :: i < k < |es| ==> es[k].Name != es[i].Name
    ensures es[i].Name in Catalog(es) && Catalog(es)[es[i].Name] == ToRemoteImage(es[i])
  {
    if i < |es| - 1 {
      var init := es[..|es| - 1];
      assert init[i] == es[i];
      CatalogLastWins(init, i);
    }
  }

  /**
   * Translates a V1 catalog. Unnamed entries are skipped; every other entry's
   * versions are translated in order, and a later entry with the same name
   * replaces an earlier one.
   */
  method RemoteContentsFromJSONV1(j: RemoteImagesV1) returns (res: RemoteContents)
    ensures res.Images == Catalog(j.Images)
    ensures res.Images.Keys == NamesOf(j.Images)
    ensures forall i ::
      (0 <= i < |j.Images| && j.Images[i].Name != "" &&
       forall k :: i < k < |j.Images| ==> j.Images[k].Name != j.Images[i].Name) ==>
      (j.Images[i].Name in res.Images && res.Images[j.Images[i].Name] == ToRemoteImage(j.Images[i]))
  {
    var images: map<string, RemoteImage> := map[];
    for n := 0 to |j.Images|
      invariant images == Catalog(j.Images[..n])
    {
      var im := j.Images[n];
      assert j.Images[..n + 1][..n] == j.Images[..n];
      if im.Name == "" {
        continue;
      }
      var tmpVersions: seq<RemoteVersion> := [];
      for v := 0 to |im.Versions|
        invariant tmpVersions == Map(RemoteVersionFromJSONV1, im.Versions[..v])
      {
        MapSnoc(RemoteVersionFromJSONV1, im.Versions, v);
        tmpVersions := tmpVersions + [RemoteVersionFromJSONV1(im.Versions[v])];
      }
      assert im.Versions[..|im.Versions|] == im.Versions;
      var tmpImage := RemoteImage(im.DefaultVersion, im.Name, tmpVersions);
      images := images[im.Name := tmpImage];
    }
    assert j.Images[..|j.Images|] == j.Images;
    res := RemoteContents(images);
    CatalogKeys(j.Images);
    forall i | 0 <= i < |j.Images| && j.Images[i].Name != "" &&
      (forall k :: i < k < |j.Images| ==> j.Images[k].Name != j.Images[i].Name)
      ensures j.Images[i].Name in res.Images && res.Images[j.Images[i].Name] == ToRemoteImage(j.Images[i])
    {
      CatalogLastWins(j.Images, i);
    }
  }

  /** An unnamed entry next to a named one yields a catalog holding the named one only. */
  lemma UnnamedEntryDropped(unnamed: RemoteImageV1, named: RemoteImageV1)
    requires unnamed.Name == "" && named.Name != ""
    ensures Catalog([unnamed, named]) == map[named.Name := ToRemoteImage(named)]
  {
    assert [unnamed, named][..1] == [unnamed] && [unnamed][..0] == [];
    assert Catalog([unnamed]) == map[];
  }

  /** Two entries with the same name yield one catalog entry, the translation of the second. */
  lemma DuplicateNameLastWins(first: RemoteImageV1, second: RemoteImageV1)
    requires first.Name == second.Name != ""
    ensures Catalog([first, second]) == map[second.Name := ToRemoteImage(second)]
  {
    assert [first, second][..1] == [first] && [first][..0] == [];
    assert Catalog([first]) == map[first.Name := ToRemoteImage(first)];
  }
}
