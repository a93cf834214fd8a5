/**
 * The client's bundled Quran collection, built once when its module loads:
 * for every surah of the Arabic array that the transliteration and the
 * translation arrays also hold (matched by id), a metadata entry for the
 * selection list and the combined verse list in the content map.
 */
module QuranCollection {
  import opened Wrappers
  import opened Protocol
  import opened Decimal

  /**
   * One surah of a bundled JSON array. `verses` is None when the surah has no
   * verse array; each verse is reduced to its `text`, None when missing.
   */
  datatype SourceSurah = SourceSurah(id: nat, name: Option<string>, arabic: Option<string>, verses: Option<seq<Option<string>>>)

  /** An entry of `quranMetadata` (its `type` is always 'quran'). */
  datatype SurahEntry = SurahEntry(id: nat, title: string, arabicTitle: string, totalAyahs: nat)

  /** An entry of `quranContentMap` (its `type` is always 'quran'). */
  datatype SurahContent = SurahContent(id: nat, title: string, arabicTitle: string, totalAyahs: nat, verses: seq<Verse>)

  // ---------------------------------------------------------------------------
  // Per-surah pieces
  // ---------------------------------------------------------------------------

  /** `array.find(s => s.id === id)`: the first surah with that id. */
  function FindById(surahs: seq<SourceSurah>, id: nat): (r: Option<SourceSurah>)
    ensures r.None? <==> forall s :: s in surahs ==> s.id != id
    ensures r.Some? ==> exists i :: 0 <= i < |surahs| && surahs[i] == r.value && r.value.id == id
                                    && forall j :: 0 <= j < i ==> surahs[j].id != id
    decreases |surahs|
  {
    if surahs == [] then None
    else if surahs[0].id == id then Some(surahs[0])
    else
      var r := FindById(surahs[1..], id);
      assert r.Some? ==> exists i :: 0 <= i < |surahs| && surahs[i] == r.value && r.value.id == id
                                     && forall j :: 0 <= j < i ==> surahs[j].id != id by {
        if r.Some? {
          var i :| 0 <= i < |surahs[1..]| && surahs[1..][i] == r.value && r.value.id == id
                   && forall j :: 0 <= j < i ==> surahs[1..][j].id != id;
          assert surahs[i + 1] == r.value;
          forall j | 0 <= j < i + 1 ensures surahs[j].id != id {
            if j > 0 { assert surahs[j] == surahs[1..][j - 1]; }
          }
        }
      }
      r
  }

  /** The arabic surah has partners in both other arrays. */
  predicate Matched(a: SourceSurah, translit: seq<SourceSurah>, translation: seq<SourceSurah>) {
    FindById(translit, a.id).Some? && FindById(translation, a.id).Some?
  }

  /** `surah.verses?.length || 0`. */
  function VerseCount(a: SourceSurah): nat {
    if a.verses.Some? then |a.verses.value| else 0
  }

  /** The metadata entry of one Arabic surah: its name or "Surah <id>", its Arabic name or ''. */
  function EntryOf(a: SourceSurah): SurahEntry {
    SurahEntry(a.id, OrElse(a.name, "Surah " + NatToString(a.id)), OrElse(a.arabic, ""), VerseCount(a))
  }

  /** `surah.verses?.[j]?.text || ''`. */
  function TextAt(s: SourceSurah, j: nat): string {
    if s.verses.Some? && j < |s.verses.value| then OrElse(s.verses.value[j], "") else ""
  }

  /** The combined verse at position j: ayah number j + 1 and the three texts at j. */
  function CombinedVerse(a: SourceSurah, t: SourceSurah, tr: SourceSurah, j: nat): Verse {
    Verse(j + 1, TextAt(a, j), TextAt(t, j), TextAt(tr, j))
  }

  /** The content map entry for a matched surah: one combined verse per Arabic verse. */
  function ContentOf(a: SourceSurah, t: SourceSurah, tr: SourceSurah): (c: SurahContent)
    ensures |c.verses| == c.totalAyahs == VerseCount(a)
    ensures forall j :: 0 <= j < |c.verses| ==> c.verses[j] == CombinedVerse(a, t, tr, j)
  {
    var e := EntryOf(a);
    SurahContent(e.id, e.title, e.arabicTitle, e.totalAyahs,
                 seq(e.totalAyahs, j requires 0 <= j < e.totalAyahs => CombinedVerse(a, t, tr, j)))
  }

  /** The length of the verse list follows the Arabic surah alone; missing partner verses read as ''. */
  lemma PartnersDoNotShorten(a: SourceSurah, t: SourceSurah, tr: SourceSurah, j: nat)
    requires j < VerseCount(a)
    requires t.verses.None? || j >= |t.verses.value|
    ensures j < |ContentOf(a, t, tr).verses|
    ensures ContentOf(a, t, tr).verses[j].transliteration == ""
    ensures ContentOf(a, t, tr).verses[j].ayah == j + 1
  {
  }

  // ---------------------------------------------------------------------------
  // The collection, as a function of the Arabic prefix processed so far
  // ---------------------------------------------------------------------------

  /** The metadata entries produced by the Arabic surahs in `arabic`, in order. */
  function Entries(arabic: seq<SourceSurah>, translit: seq<SourceSurah>, translation: seq<SourceSurah>): seq<SurahEntry>
    decreases |arabic|
  {
    if arabic == [] then []
    else
      var a := arabic[|arabic| - 1];
      Entries(arabic[..|arabic| - 1], translit, translation) + (if Matched(a, translit, translation) then [EntryOf(a)] else [])
  }

  /** The content map after the Arabic surahs in `arabic`: each matched surah writes its id, later ones overwrite. */
  function ContentMap(arabic: seq<SourceSurah>, translit: seq<SourceSurah>, translation: seq<SourceSurah>): map<nat, SurahContent>
    decreases |arabic|
  {
    if arabic == [] then map[]
    else
      var a := arabic[|arabic| - 1];
      var m := ContentMap(arabic[..|arabic| - 1], translit, translation);
      if Matched(a, translit, translation) then
        m[a.id := ContentOf(a, FindById(translit, a.id).value, FindById(translation, a.id).value)]
      else m
  }

  /** The metadata list has one entry per matched Arabic surah and nothing else. */
  lemma {:induction false} EntriesMembers(arabic: seq<SourceSurah>, translit: seq<SourceSurah>, translation: seq<SourceSurah>)
    ensures forall e :: e in Entries(arabic, translit, translation) <==>
      exists a :: a in arabic && Matched(a, translit, translation) && EntryOf(a) == e
    ensures |Entries(arabic, translit, translation)| <= |arabic|
    decreases |arabic|
  {
    if arabic != [] {
      var init := arabic[..|arabic| - 1];
      var a := arabic[|arabic| - 1];
      EntriesMembers(init, translit, translation);
      assert arabic == init + [a];
      forall e | e in Entries(arabic, translit, translation)
        ensures exists b :: b in arabic && Matched(b, translit, translation) && EntryOf(b) == e
      {
        if e !in Entries(init, translit, translation) {
          assert e == EntryOf(a) && Matched(a, translit, translation);
        }
      }
    }
  }

  /** No two metadata entries share an id. */
  predicate IdsUnique(es: seq<SurahEntry>) {
    forall i, j :: 0 <= i < j < |es| ==> es[i].id != es[j].id
  }

  /** The content map holds exactly the ids of the metadata list. */
  lemma {:induction false} ContentMapKeys(arabic: seq<SourceSurah>, translit: seq<SourceSurah>, translation: seq<SourceSurah>)
    ensures forall id :: id in ContentMap(arabic, translit, translation) <==>
      exists e :: e in Entries(arabic, translit, translation) && e.id == id
    decreases |arabic|
  {
    if arabic != [] {
      var init := arabic[..|arabic| - 1];
      var a := arabic[|arabic| - 1];
      ContentMapKeys(init, translit, translation);
      if Matched(a, translit, translation) {
        assert EntryOf(a) in Entries(arabic, translit, translation);
      }
    }
  }

  /**
   * When the ids are distinct, each metadata entry and its content map entry agree on
   * id, title, Arabic title and ayah count, and the content holds that many verses.
   */
  lemma {:induction false} ContentMapAgrees(arabic: seq<SourceSurah>, translit: seq<SourceSurah>, translation: seq<SourceSurah>)
    requires IdsUnique(Entries(arabic, translit, translation))
    ensures forall e :: e in Entries(arabic, translit, translation) ==>
      && e.id in ContentMap(arabic, translit, translation)
      && var c := ContentMap(arabic, translit, translation)[e.id];
      && c.id == e.id && c.title == e.title && c.arabicTitle == e.arabicTitle && c.totalAyahs == e.totalAyahs
      && |c.verses| == e.totalAyahs
    decreases |arabic|
  {
    ContentMapKeys(arabic, translit, translation);
    if arabic != [] {
      var init := arabic[..|arabic| - 1];
      var a := arabic[|arabic| - 1];
      var es := Entries(init, translit, translation);
      assert IdsUnique(es) by {
        forall i, j | 0 <= i < j < |es| ensures es[i].id != es[j].id {
          assert Entries(arabic, translit, translation)[i] == es[i];
          assert Entries(arabic, translit, translation)[j] == es[j];
        }
      }
      ContentMapAgrees(init, translit, translation);
      if Matched(a, translit, translation) {
        forall e | e in es ensures e.id != a.id {
          var i :| 0 <= i < |es| && es[i] == e;
          assert Entries(arabic, translit, translation)[|es|] == EntryOf(a);
          assert Entries(arabic, translit, translation)[i] == e;
        }
      }
    }
  }

  // ---------------------------------------------------------------------------
  // The build
  // ---------------------------------------------------------------------------

  /**
   * The module-level build. Each input is None when the bundled file is not an
   * array; then nothing is produced. Otherwise the Arabic array is walked in
   * order, skipping surahs whose id the other two arrays lack.
   */
  method BuildQuranCollection(
    arabicArr: Option<seq<SourceSurah>>, translitArr: Option<seq<SourceSurah>>, translationArr: Option<seq<SourceSurah>>)
    returns (quranMetadata: seq<SurahEntry>, quranContentMap: map<nat, SurahContent>)
    ensures arabicArr.None? || translitArr.None? || translationArr.None? ==>
      quranMetadata == [] && quranContentMap == map[]
    ensures arabicArr.Some? && translitArr.Some? && translationArr.Some? ==>
      && quranMetadata == Entries(arabicArr.value, translitArr.value, translationArr.value)
      && quranContentMap == ContentMap(arabicArr.value, translitArr.value, translationArr.value)
  {
    quranMetadata := [];
    quranContentMap := map[];
    if arabicArr.None? || translitArr.None? || translationArr.None? {
      return;
    }
    var arabic, translit, translation := arabicArr.value, translitArr.value, translationArr.value;
    var i := 0;
    while i < |arabic|
      invariant 0 <= i <= |arabic|
      invariant quranMetadata == Entries(arabic[..i], translit, translation)
      invariant quranContentMap == ContentMap(arabic[..i], translit, translation)
    {
      assert arabic[..i + 1][..i] == arabic[..i];
      var arabicSurah := arabic[i];
      var translitSurah := FindById(translit, arabicSurah.id);
      var translaSurah := FindById(translation, arabicSurah.id);
      if translitSurah.None? || translaSurah.None? {
        i := i + 1;
        continue;
      }
      var metadata := EntryOf(arabicSurah);
      quranMetadata := quranMetadata + [metadata];
      var combinedVerses: seq<Verse> := [];
      var j := 0;
      while j < metadata.totalAyahs
        invariant 0 <= j <= metadata.totalAyahs
        invariant |combinedVerses| == j
        invariant forall k :: 0 <= k < j ==>
          combinedVerses[k] == CombinedVerse(arabicSurah, translitSurah.value, translaSurah.value, k)
      {
        combinedVerses := combinedVerses + [Verse(j + 1, TextAt(arabicSurah, j), TextAt(translitSurah.value, j),
                                                  TextAt(translaSurah.value, j))];
        j := j + 1;
      }
      assert combinedVerses == ContentOf(arabicSurah, translitSurah.value, translaSurah.value).verses;
      quranContentMap := quranContentMap[arabicSurah.id :=
        SurahContent(metadata.id, metadata.title, metadata.arabicTitle, metadata.totalAyahs, combinedVerses)];
      i := i + 1;
    }
    assert arabic[..i] == arabic;
  }
}
