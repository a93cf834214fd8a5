/**
 * The server's Quran tables: the surah metadata list built at start-up and
 * the per-surah merge of the Arabic, transliteration and translation tables
 * that answers `get_quran_content`.
 *
 * Each parsed JSON file is an object keyed by surah number (a string); each
 * surah holds an `Ayahs` object keyed by ayah number (a string). Reading and
 * parsing the files is outside the model: the parsed objects are inputs.
 */
module ServerQuran {
  import opened Wrappers
  import opened Protocol
  import opened Decimal

  /** One ayah record; each file fills its own field ("Arabic", "Transliteration", "Ali Quli Qara'i"). */
  datatype AyahObj = AyahObj(arabic: Option<string>, transliteration: Option<string>, translation: Option<string>)

  type AyahTable = map<string, AyahObj>

  /** One surah record; `ayahs` is None when the `Ayahs` object is missing. */
  datatype SurahObj = SurahObj(
    englishNames: Option<string>,
    transliteratedName: Option<string>,
    arabicName: Option<string>,
    ayahs: Option<AyahTable>)

  /** A parsed data file: surah key to surah record. */
  type QuranObj = map<string, SurahObj>

  /** One entry of `quranMetadata`. */
  datatype SurahMeta = SurahMeta(id: string, title: string, arabic: string, totalAyahs: nat)

  /** What `getMergedSurahData` returns for a surah it can assemble. */
  datatype MergedSurah = MergedSurah(id: string, title: string, arabicTitle: string, totalAyahs: nat, verses: seq<Verse>)

  // ---------------------------------------------------------------------------
  // Metadata build (the `map` + `filter` + `sort` at start-up)
  // ---------------------------------------------------------------------------

  /** The callback of the metadata `map`: None (later filtered out) for a surah without `Ayahs`. */
  function MetaOf(key: string, surah: SurahObj): Option<SurahMeta> {
    match surah.ayahs
    case None => None
    case Some(table) =>
      Some(SurahMeta(
        key,
        OrElse(surah.englishNames, OrElse(surah.transliteratedName, "Surah " + key)),
        OrElse(surah.arabicName, ""),
        |table|))
  }

  /** `Object.keys(obj)`: every key of the object exactly once, in enumeration order. */
  ghost predicate IsKeyOrder(keys: seq<string>, obj: QuranObj) {
    && (forall i, j :: 0 <= i < j < |keys| ==> keys[i] != keys[j])
    && (forall k :: k in obj <==> k in keys)
  }

  /** `Object.keys(obj).map(MetaOf).filter(meta => meta !== null)`. */
  function MetaList(obj: QuranObj, keys: seq<string>): seq<SurahMeta>
    requires forall k :: k in keys ==> k in obj
  {
    if keys == [] then []
    else
      (match MetaOf(keys[0], obj[keys[0]]) case Some(m) => [m] case None => [])
      + MetaList(obj, keys[1..])
  }

  /**
   * The metadata list holds one entry per surah that has an `Ayahs` object and no
   * other, and each entry counts the keys of that surah's `Ayahs` object.
   */
  lemma {:induction false} MetaListMembers(obj: QuranObj, keys: seq<string>)
    requires forall k :: k in keys ==> k in obj
    ensures forall m :: m in MetaList(obj, keys) ==>
      m.id in keys && obj[m.id].ayahs.Some? && m.totalAyahs == |obj[m.id].ayahs.value|
      && MetaOf(m.id, obj[m.id]) == Some(m)
    ensures forall k :: k in keys && obj[k].ayahs.Some? ==> MetaOf(k, obj[k]).value in MetaList(obj, keys)
    decreases |keys|
  {
    if keys != [] {
      MetaListMembers(obj, keys[1..]);
    }
  }

  /** The sort key `parseInt(id, 10)`. */
  function SurahNumber(m: SurahMeta): nat {
    ParseDigits(m.id)
  }

  ghost predicate SortedByNumber(ms: seq<SurahMeta>) {
    forall i, j :: 0 <= i < j < |ms| ==> SurahNumber(ms[i]) <= SurahNumber(ms[j])
  }

  /** Exchange two neighbouring entries; nothing else moves. */
  method SwapDown(a: array<SurahMeta>, j: int)
    requires 0 < j < a.Length
    modifies a
    ensures a[..] == old(a[..])[j - 1 := old(a[j])][j := old(a[j - 1])]
    ensures multiset(a[..]) == multiset(old(a[..]))
  {
    a[j - 1], a[j] := a[j], a[j - 1];
  }

  /** Move `a[i]` down into the sorted prefix `a[..i]`, leaving `a[..i + 1]` sorted. */
  method InsertNext(a: array<SurahMeta>, i: int)
    requires 0 <= i < a.Length
    requires forall p, q :: 0 <= p < q < i ==> SurahNumber(a[p]) <= SurahNumber(a[q])
    modifies a
    ensures forall p, q :: 0 <= p < q <= i ==> SurahNumber(a[p]) <= SurahNumber(a[q])
    ensures multiset(a[..]) == multiset(old(a[..]))
  {
    var j := i;
    while j > 0 && SurahNumber(a[j - 1]) > SurahNumber(a[j])
      invariant 0 <= j <= i
      invariant forall p, q :: 0 <= p < q <= i && p != j && q != j ==> SurahNumber(a[p]) <= SurahNumber(a[q])
      invariant forall q :: j < q <= i ==> SurahNumber(a[j]) < SurahNumber(a[q])
      invariant 0 < j < i ==> SurahNumber(a[j - 1]) <= SurahNumber(a[j + 1])
      invariant multiset(a[..]) == multiset(old(a[..]))
    {
      SwapDown(a, j);
      j := j - 1;
    }
  }

  /** `quranMetadata.sort((a, b) => parseInt(a.id) - parseInt(b.id))`, in place (insertion sort, stable). */
  method SortMetadata(a: array<SurahMeta>)
    modifies a
    ensures SortedByNumber(a[..])
    ensures multiset(a[..]) == multiset(old(a[..]))
  {
    var i := 0;
    while i < a.Length
      invariant 0 <= i <= a.Length
      invariant forall p, q :: 0 <= p < q < i ==> SurahNumber(a[p]) <= SurahNumber(a[q])
      invariant multiset(a[..]) == multiset(old(a[..]))
    {
      InsertNext(a, i);
      i := i + 1;
    }
  }

  /**
   * The start-up metadata build: map every surah key to its metadata, drop the
   * surahs without `Ayahs`, and sort by surah number. The enumeration order of
   * the keys is an input, since the sort makes the result independent of it.
   */
  method BuildMetadata(obj: QuranObj, keys: seq<string>) returns (metadata: seq<SurahMeta>)
    requires IsKeyOrder(keys, obj)
    requires forall k :: k in obj ==> IsNumeral(k)
    ensures SortedByNumber(metadata)
    ensures multiset(metadata) == multiset(MetaList(obj, keys))
    ensures forall m :: m in metadata ==>
      m.id in obj && obj[m.id].ayahs.Some? && m.totalAyahs == |obj[m.id].ayahs.value|
    ensures forall k :: k in obj && obj[k].ayahs.Some? ==> exists m :: m in metadata && m.id == k
  {
    var list := MetaList(obj, keys);
    var a := new SurahMeta[|list|](i requires 0 <= i < |list| => list[i]);
    assert a[..] == list;
    SortMetadata(a);
    metadata := a[..];
    MetaListMembers(obj, keys);
    forall m | m in metadata
      ensures m.id in obj && obj[m.id].ayahs.Some? && m.totalAyahs == |obj[m.id].ayahs.value|
    {
      assert m in multiset(metadata);
      assert m in list;
    }
    forall k | k in obj && obj[k].ayahs.Some?
      ensures exists m :: m in metadata && m.id == k
    {
      var m := MetaOf(k, obj[k]).value;
      assert m in multiset(list);
      assert m in metadata;
    }
  }

  // ---------------------------------------------------------------------------
  // getMergedSurahData
  // ---------------------------------------------------------------------------

  /** `metadata.find(s => s.id === id)`: the first entry with that id. */
  function FindMeta(metadata: seq<SurahMeta>, id: string): (r: Option<SurahMeta>)
    ensures r.None? <==> forall m :: m in metadata ==> m.id != id
    ensures r.Some? ==> exists i :: 0 <= i < |metadata| && metadata[i] == r.value && r.value.id == id
                                     && forall j :: 0 <= j < i ==> metadata[j].id != id
    decreases |metadata|
  {
    if metadata == [] then None
    else if metadata[0].id == id then Some(metadata[0])
    else
      var r := FindMeta(metadata[1..], id);
      assert r.Some? ==> exists i :: 0 <= i < |metadata| && metadata[i] == r.value && r.value.id == id
                                     && forall j :: 0 <= j < i ==> metadata[j].id != id by {
        if r.Some? {
          var i :| 0 <= i < |metadata[1..]| && metadata[1..][i] == r.value && r.value.id == id
                   && forall j :: 0 <= j < i ==> metadata[1..][j].id != id;
          assert metadata[i + 1] == r.value;
          forall j | 0 <= j < i + 1 ensures metadata[j].id != id {
            if j > 0 { assert metadata[j] == metadata[1..][j - 1]; }
          }
        }
      }
      r
  }

  /** `obj[surahId]?.Ayahs`. */
  function AyahsOf(obj: QuranObj, surahId: string): Option<AyahTable> {
    if surahId in obj then obj[surahId].ayahs else None
  }

  /** `ayahsObj[key]?.Arabic ?? ''`. */
  function ArabicText(t: AyahTable, key: string): string {
    if key in t then t[key].arabic.GetOr("") else ""
  }

  /** `ayahsObj[key]?.Transliteration ?? ''`. */
  function TransliterationText(t: AyahTable, key: string): string {
    if key in t then t[key].transliteration.GetOr("") else ""
  }

  /** `ayahsObj[key]?.["Ali Quli Qara'i"] ?? ''`. */
  function TranslationText(t: AyahTable, key: string): string {
    if key in t then t[key].translation.GetOr("") else ""
  }

  /** The merged verse for ayah number `n`, looked up under the key `String(n)`. */
  function MergedVerse(arabic: AyahTable, translit: AyahTable, translation: AyahTable, n: nat): Verse {
    var key := NatToString(n);
    Verse(n, ArabicText(arabic, key), TransliterationText(translit, key), TranslationText(translation, key))
  }

  /**
   * `getMergedSurahData(surahId)`: null unless the surah has metadata and all three
   * tables hold an `Ayahs` object for it; otherwise one merged verse per ayah number
   * 1 .. totalAyahs of the metadata, whatever the tables' own key counts are.
   */
  method GetMergedSurahData(
    metadata: seq<SurahMeta>, arabicObj: QuranObj, translitObj: QuranObj, translationObj: QuranObj, surahId: string)
    returns (r: Option<MergedSurah>)
    ensures r.None? <==>
      FindMeta(metadata, surahId).None? || AyahsOf(arabicObj, surahId).None?
      || AyahsOf(translitObj, surahId).None? || AyahsOf(translationObj, surahId).None?
    ensures r.Some? ==>
      var meta := FindMeta(metadata, surahId).value;
      && r.value.id == meta.id && r.value.title == meta.title && r.value.arabicTitle == meta.arabic
      && r.value.totalAyahs == meta.totalAyahs
      && |r.value.verses| == meta.totalAyahs
      && forall i :: 0 <= i < |r.value.verses| ==>
           r.value.verses[i].ayah == i + 1
           && r.value.verses[i] == MergedVerse(AyahsOf(arabicObj, surahId).value, AyahsOf(translitObj, surahId).value,
                                               AyahsOf(translationObj, surahId).value, i + 1)
  {
    var found := FindMeta(metadata, surahId);
    if found.None? {
      return None;
    }
    var meta := found.value;
    var arabicAyahs := AyahsOf(arabicObj, surahId);
    var translitAyahs := AyahsOf(translitObj, surahId);
    var translationAyahs := AyahsOf(translationObj, surahId);
    if arabicAyahs.None? || translitAyahs.None? || translationAyahs.None? {
      return None;
    }
    var totalAyahs := meta.totalAyahs;
    var mergedVerses: seq<Verse> := [];
    var i := 1;
    while i <= totalAyahs
      invariant 1 <= i <= totalAyahs + 1
      invariant |mergedVerses| == i - 1
      invariant forall k :: 0 <= k < i - 1 ==>
        mergedVerses[k] == MergedVerse(arabicAyahs.value, translitAyahs.value, translationAyahs.value, k + 1)
    {
      mergedVerses := mergedVerses + [MergedVerse(arabicAyahs.value, translitAyahs.value, translationAyahs.value, i)];
      i := i + 1;
    }
    r := Some(MergedSurah(meta.id, meta.title, meta.arabic, totalAyahs, mergedVerses));
  }
}
