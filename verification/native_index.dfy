/**
 * The indexes the native module builds once per dataset so that the getters
 * never walk the tree: the sorted languages, the sorted formats of each
 * language and the sorted dates of each "lang::fmt" pair.
 */
module NativeIndex {
  import opened Ordering
  import opened InventoryTree
  import opened NativeGen

  datatype Indexes = Indexes(
    languages: seq<string>,
    formatsByLanguage: map<string, seq<string>>,
    datesByLangFormat: map<string, seq<string>>)

  /** The key of the dates index: "$lang::$fmt". */
  function DateKey(l: string, f: string): string {
    l + "::" + f
  }

  /** The (language, format) pairs of the tree whose language is in ls. */
  ghost function Pairs(t: Tree, ls: set<string>): set<(string, string)> {
    set l, f | l in ls && l in t && f in t[l] :: (l, f)
  }

  /**
   * m is a dates index of the pairs ps: every pair has its key, and every key
   * holds the sorted dates of some pair with that key (two pairs can share a key
   * when a language contains ':'; the pair written last wins).
   */
  ghost predicate DatesIndexed(t: Tree, ps: set<(string, string)>, m: map<string, seq<string>>) {
    (forall l, f :: (l, f) in ps ==> DateKey(l, f) in m)
    && (forall k :: k in m ==>
          exists l, f :: (l, f) in ps && l in t && f in t[l] && k == DateKey(l, f) && m[k] == SortedKeys(t[l][f].Keys))
  }

  /** ix holds exactly the indexes of the tree t. */
  ghost predicate IndexesOf(t: Tree, ix: Indexes) {
    ix.languages == SortedKeys(t.Keys)
    && FormatsIndexed(t, t.Keys, ix.formatsByLanguage)
    && DatesIndexed(t, Pairs(t, t.Keys), ix.datesByLangFormat)
  }

  /** m maps exactly the languages ls to their sorted formats. */
  ghost predicate FormatsIndexed(t: Tree, ls: set<string>, m: map<string, seq<string>>) {
    m.Keys == ls && forall l :: l in m ==> l in t && m[l] == SortedKeys(t[l].Keys)
  }

  /** The state of the outer loop: the languages outside todo have been visited. */
  ghost predicate IndexState(t: Tree, todo: set<string>, formats: map<string, seq<string>>, dates: map<string, seq<string>>) {
    todo <= t.Keys
    && FormatsIndexed(t, t.Keys - todo, formats)
    && DatesIndexed(t, Pairs(t, t.Keys - todo), dates)
  }

  /** Writing one pair's dates keeps the index an index of the pairs written so far. */
  lemma DatesIndexedAdd(t: Tree, ps: set<(string, string)>, m: map<string, seq<string>>, l: string, f: string)
    requires DatesIndexed(t, ps, m) && l in t && f in t[l]
    ensures DatesIndexed(t, ps + {(l, f)}, m[DateKey(l, f) := SortedKeys(t[l][f].Keys)])
  {
    var m' := m[DateKey(l, f) := SortedKeys(t[l][f].Keys)];
    forall k | k in m'
      ensures exists l', f' ::
        (l', f') in ps + {(l, f)} && l' in t && f' in t[l'] && k == DateKey(l', f') && m'[k] == SortedKeys(t[l'][f'].Keys)
    {
      if k == DateKey(l, f) {
        assert (l, f) in ps + {(l, f)};
      } else {
        var l', f' :| (l', f') in ps && l' in t && f' in t[l'] && k == DateKey(l', f') && m[k] == SortedKeys(t[l'][f'].Keys);
        assert (l', f') in ps + {(l, f)};
      }
    }
  }

  /** Taking x out of the keys still to visit adds x to the visited ones. */
  lemma VisitedStep(keys: set<string>, todo: set<string>, x: string)
    requires x in todo && todo <= keys
    ensures keys - (todo - {x}) == (keys - todo) + {x}
  {
  }

  /** The pairs of one language whose formats are in fs. */
  ghost function FormatPairs(l: string, fs: set<string>): set<(string, string)> {
    set f | f in fs :: (l, f)
  }

  lemma FormatPairsStep(ps: set<(string, string)>, l: string, keys: set<string>, ftodo: set<string>, f: string)
    requires f in ftodo && ftodo <= keys
    ensures ps + FormatPairs(l, keys - (ftodo - {f})) == (ps + FormatPairs(l, keys - ftodo)) + {(l, f)}
  {
    VisitedStep(keys, ftodo, f);
  }

  lemma PairsStep(t: Tree, todo: set<string>, l: string)
    requires l in todo && todo <= t.Keys
    ensures Pairs(t, t.Keys - (todo - {l})) == Pairs(t, t.Keys - todo) + FormatPairs(l, t[l].Keys - {})
  {
    VisitedStep(t.Keys, todo, l);
    assert t[l].Keys - {} == t[l].Keys;
  }

  /** The inner loop's state: the languages outside todo and the formats of lang outside ftodo have been visited. */
  ghost predicate LanguageState(t: Tree, todo: set<string>, lang: string, ftodo: set<string>, dates: map<string, seq<string>>) {
    lang in t && ftodo <= t[lang].Keys
    && DatesIndexed(t, Pairs(t, t.Keys - todo) + FormatPairs(lang, t[lang].Keys - ftodo), dates)
  }

  /** One turn of the inner loop: `datesByLangFormat["$lang::$fmt"] = dates.keys.sorted()`. */
  method IndexFormat(t: Tree, ghost todo: set<string>, lang: string, ftodo: set<string>, dates: map<string, seq<string>>, fmt: string)
    returns (dates': map<string, seq<string>>)
    requires LanguageState(t, todo, lang, ftodo, dates) && fmt in ftodo
    ensures LanguageState(t, todo, lang, ftodo - {fmt}, dates')
  {
    DatesIndexedAdd(t, Pairs(t, t.Keys - todo) + FormatPairs(lang, t[lang].Keys - ftodo), dates, lang, fmt);
    FormatPairsStep(Pairs(t, t.Keys - todo), lang, t[lang].Keys, ftodo, fmt);
    dates' := dates[DateKey(lang, fmt) := SortedKeys(t[lang][fmt].Keys)];
  }

  lemma LanguageStart(t: Tree, todo: set<string>, lang: string, dates: map<string, seq<string>>)
    requires DatesIndexed(t, Pairs(t, t.Keys - todo), dates) && lang in t
    ensures LanguageState(t, todo, lang, t[lang].Keys, dates)
  {
    assert Pairs(t, t.Keys - todo) + FormatPairs(lang, t[lang].Keys - t[lang].Keys) == Pairs(t, t.Keys - todo);
  }

  lemma LanguageDone(t: Tree, todo: set<string>, lang: string, dates: map<string, seq<string>>)
    requires LanguageState(t, todo, lang, {}, dates) && lang in todo && todo <= t.Keys
    ensures DatesIndexed(t, Pairs(t, t.Keys - (todo - {lang})), dates)
  {
    PairsStep(t, todo, lang);
  }

  lemma FormatsStep(t: Tree, todo: set<string>, formats: map<string, seq<string>>, lang: string)
    requires FormatsIndexed(t, t.Keys - todo, formats) && lang in todo && todo <= t.Keys
    ensures FormatsIndexed(t, t.Keys - (todo - {lang}), formats[lang := SortedKeys(t[lang].Keys)])
  {
    VisitedStep(t.Keys, todo, lang);
  }

  /** One turn of the outer loop: the language's sorted formats, then each format's sorted dates. */
  method IndexLanguage(t: Tree, ghost todo: set<string>, formats: map<string, seq<string>>,
                       dates: map<string, seq<string>>, lang: string)
    returns (formats': map<string, seq<string>>, dates': map<string, seq<string>>)
    requires IndexState(t, todo, formats, dates) && lang in todo
    ensures IndexState(t, todo - {lang}, formats', dates')
  {
    FormatsStep(t, todo, formats, lang);
    formats' := formats[lang := SortedKeys(t[lang].Keys)];
    dates' := dates;
    var ftodo := t[lang].Keys;
    LanguageStart(t, todo, lang, dates');
    while ftodo != {}
      invariant LanguageState(t, todo, lang, ftodo, dates')
      decreases |ftodo|
    {
      var fmt :| fmt in ftodo;
      dates' := IndexFormat(t, todo, lang, ftodo, dates', fmt);
      ftodo := ftodo - {fmt};
    }
    LanguageDone(t, todo, lang, dates');
  }

  lemma IndexStart(t: Tree)
    ensures IndexState(t, t.Keys, map[], map[])
  {
    assert t.Keys - t.Keys == {};
    assert Pairs(t, {}) == {};
  }

  lemma IndexDone(t: Tree, formats: map<string, seq<string>>, dates: map<string, seq<string>>)
    requires IndexState(t, {}, formats, dates)
    ensures FormatsIndexed(t, t.Keys, formats) && DatesIndexed(t, Pairs(t, t.Keys), dates)
  {
    assert t.Keys - {} == t.Keys;
  }

  /**
   * buildIndexes: the languages sorted, each language's formats sorted and each
   * (language, format)'s dates sorted, visiting the tree in an unspecified order.
   */
  method BuildIndexes(t: Tree) returns (ix: Indexes)
    ensures ix.languages == SortedKeys(t.Keys)
    ensures FormatsIndexed(t, t.Keys, ix.formatsByLanguage)
    ensures DatesIndexed(t, Pairs(t, t.Keys), ix.datesByLangFormat)
  {
    var languages := SortedKeys(t.Keys);
    var formats: map<string, seq<string>> := map[];
    var dates: map<string, seq<string>> := map[];
    var todo := t.Keys;
    IndexStart(t);
    while todo != {}
      invariant IndexState(t, todo, formats, dates)
      decreases |todo|
    {
      var lang :| lang in todo;
      formats, dates := IndexLanguage(t, todo, formats, dates, lang);
      todo := todo - {lang};
    }
    IndexDone(t, formats, dates);
    ix := Indexes(languages, formats, dates);
  }

  /** The only ':' in the key of a ':'-free language and format are the two of the separator. */
  lemma KeyColons(l: string, f: string, i: int)
    requires ColonFree(l) && ColonFree(f) && 0 <= i < |DateKey(l, f)| && DateKey(l, f)[i] == ':'
    ensures i == |l| || i == |l| + 1
  {
    var k := DateKey(l, f);
    assert forall j :: 0 <= j < |l| ==> k[j] == l[j];
    assert forall j :: |l| + 2 <= j < |k| ==> k[j] == f[j - |l| - 2];
  }

  /** A key built from a ':'-free language and format is built from nothing else. */
  lemma DateKeyInjective(l1: string, f1: string, l2: string, f2: string)
    requires ColonFree(l2) && ColonFree(f2) && DateKey(l1, f1) == DateKey(l2, f2)
    ensures l1 == l2 && f1 == f2
  {
    var k := DateKey(l1, f1);
    assert k[|l1|] == ':' && k[|l1| + 1] == ':';
    KeyColons(l2, f2, |l1|);
    KeyColons(l2, f2, |l1| + 1);
    assert l1 == k[..|l1|] && l2 == DateKey(l2, f2)[..|l2|];
    assert f1 == k[|l1| + 2..] && f2 == DateKey(l2, f2)[|l2| + 2..];
  }

  /** The formats of a language in the tree, none when the language is missing. */
  ghost function FormatsUnder(t: Tree, l: string): set<string> {
    if l in t then t[l].Keys else {}
  }

  /** The dates of a (language, format) in the tree, none when either is missing. */
  ghost function DatesUnder(t: Tree, l: string, f: string): set<string> {
    if l in t && f in t[l] then t[l][f].Keys else {}
  }

  /** getFormats: the indexed list, or the empty list for an unknown language. */
  function FormatsFor(ix: Indexes, lang: string): (r: seq<string>)
    ensures lang !in ix.formatsByLanguage ==> r == []
  {
    if lang in ix.formatsByLanguage then ix.formatsByLanguage[lang] else []
  }

  /** getDates: the list under "lang::fmt", or the empty list for an unknown key. */
  function DatesFor(ix: Indexes, lang: string, fmt: string): (r: seq<string>)
    ensures DateKey(lang, fmt) !in ix.datesByLangFormat ==> r == []
  {
    if DateKey(lang, fmt) in ix.datesByLangFormat then ix.datesByLangFormat[DateKey(lang, fmt)] else []
  }

  /** getFormats over built indexes lists the language's formats of the tree in order, and nothing for an unknown one. */
  lemma FormatsForTree(t: Tree, ix: Indexes, lang: string)
    requires IndexesOf(t, ix)
    ensures FormatsFor(ix, lang) == SortedKeys(FormatsUnder(t, lang))
  {
  }

  /** No language or format code of the tree contains ':'. */
  ghost predicate CodesColonFree(t: Tree) {
    forall l :: l in t ==> ColonFree(l) && forall f :: f in t[l] ==> ColonFree(f)
  }

  lemma CodesColonFreeAt(t: Tree, l: string, f: string)
    requires CodesColonFree(t) && l in t && f in t[l]
    ensures ColonFree(l) && ColonFree(f)
  {
  }

  /** A key present in the dates index names a pair of the tree and holds its sorted dates. */
  lemma DatesForPresent(t: Tree, ix: Indexes, lang: string, fmt: string)
    requires DatesIndexed(t, Pairs(t, t.Keys), ix.datesByLangFormat) && CodesColonFree(t)
    requires DateKey(lang, fmt) in ix.datesByLangFormat
    ensures lang in t && fmt in t[lang]
    ensures ix.datesByLangFormat[DateKey(lang, fmt)] == SortedKeys(t[lang][fmt].Keys)
  {
    var m := ix.datesByLangFormat;
    var k := DateKey(lang, fmt);
    var l, f :| (l, f) in Pairs(t, t.Keys) && l in t && f in t[l] && k == DateKey(l, f) && m[k] == SortedKeys(t[l][f].Keys);
    CodesColonFreeAt(t, l, f);
    DateKeyInjective(lang, fmt, l, f);
  }

  /** Every pair of the tree has its key in the dates index. */
  lemma DatesForAbsent(t: Tree, ix: Indexes, lang: string, fmt: string)
    requires DatesIndexed(t, Pairs(t, t.Keys), ix.datesByLangFormat)
    requires DateKey(lang, fmt) !in ix.datesByLangFormat
    ensures !(lang in t && fmt in t[lang])
  {
  }

  /**
   * getDates over built indexes lists the pair's dates of the tree in order, and
   * nothing for an unknown pair, when the tree's language and format codes contain no ':'.
   */
  lemma DatesForTree(t: Tree, ix: Indexes, lang: string, fmt: string)
    requires IndexesOf(t, ix) && CodesColonFree(t)
    ensures DatesFor(ix, lang, fmt) == SortedKeys(DatesUnder(t, lang, fmt))
  {
    if DateKey(lang, fmt) in ix.datesByLangFormat {
      DatesForPresent(t, ix, lang, fmt);
    } else {
      DatesForAbsent(t, ix, lang, fmt);
    }
  }
}
