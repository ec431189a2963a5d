/**
 * The native module's in-memory dataset registry: generateAndIndex stores a
 * generated tree with its indexes under an id, the getters answer from a stored
 * dataset, and destroyDataset forgets one. Calls are taken one at a time.
 */
module NativeRegistry {
  import opened Wrappers
  import opened Ordering
  import opened InventoryTree
  import opened NativeGen
  import opened NativeGenerate
  import opened NativeIndex
  import opened NativeSlice

  datatype Counts = Counts(items: int, days: int)

  /** A stored dataset; the timings the source records are clock readings and are not kept. */
  datatype Dataset = Dataset(params: Params, tree: Tree, indexes: Indexes, counts: Counts)

  /** What generateAndIndex resolves with, without the timings. */
  datatype Generated = Generated(datasetId: string, counts: Counts)

  /** A dataset is what generateAndReduce delivers for its parameters, with the indexes of its tree. */
  ghost predicate DatasetOk(ds: Dataset) {
    var dates := DateListOf(ds.params.dateStart, ds.params.dateEnd);
    dates.Ok?
    && GenOk(ds.params, dates.value, GenResult(ds.tree, ds.counts.items, ds.counts.days))
    && IndexesOf(ds.tree, ds.indexes)
  }

  /** Why generation fails for p, if it does. */
  ghost function GenError(p: Params): Option<Error> {
    var dates := DateListOf(p.dateStart, p.dateEnd);
    if dates.Err? then Some(dates.error)
    else if p.showsPerCinemaPerDay + 1 == 0 then Some(DivisionByZero)
    else None
  }

  /** Every cell of S has ':'-free language and format codes. */
  ghost predicate CellCodesColonFree(S: set<Cell>) {
    forall x :: x in S ==> ColonFree(x.0) && ColonFree(x.1)
  }

  /** Every planned cell carries a generated language and format code, and those never contain ':'. */
  lemma PlannedCodesColonFree(p: Params, dates: seq<string>)
    ensures CellCodesColonFree(PlannedFor(p, dates))
  {
    forall x | x in PlannedFor(p, dates) ensures ColonFree(x.0) && ColonFree(x.1) {
      PlannedCellShape(p, dates, x);
      var li, fi :| 0 <= li < p.languagesCount && 0 <= fi < p.formatsPerLanguage
        && x.0 == Language(li) && x.1 == Format(p.formatsPerLanguage, li, fi);
      LanguageColonFree(li);
      FormatColonFree(p.formatsPerLanguage, li, fi);
    }
  }

  /** A (language, format) pair of a pruned tree lies on some cell. */
  lemma PairOnCell(t: Tree, l: string, f: string)
    requires Pruned(t) && CellCodesColonFree(Cells(t)) && l in t && f in t[l]
    ensures ColonFree(l) && ColonFree(f)
  {
    var d :| d in t[l][f];
    var c :| c in t[l][f][d];
    CellsMembership(t, (l, f, d, c));
  }

  /** In a pruned tree every language and format lies on some cell, so the cells' codes are all of them. */
  lemma PrunedCodesColonFree(t: Tree)
    requires Pruned(t) && CellCodesColonFree(Cells(t))
    ensures CodesColonFree(t)
  {
    forall l | l in t ensures ColonFree(l) && forall f :: f in t[l] ==> ColonFree(f) {
      var f0 :| f0 in t[l];
      PairOnCell(t, l, f0);
      forall f | f in t[l] ensures ColonFree(f) {
        PairOnCell(t, l, f);
      }
    }
  }

  /** Generated language and format codes never contain ':', so every "lang::fmt" key is unambiguous. */
  lemma GeneratedCodesColonFree(p: Params, dates: seq<string>, t: Tree)
    requires Pruned(t) && Cells(t) == PlannedFor(p, dates)
    ensures CodesColonFree(t)
  {
    PlannedCodesColonFree(p, dates);
    PrunedCodesColonFree(t);
  }

  lemma DatasetCodesColonFree(ds: Dataset)
    requires DatasetOk(ds)
    ensures CodesColonFree(ds.tree)
  {
    var dates := DateListOf(ds.params.dateStart, ds.params.dateEnd);
    GeneratedCodesColonFree(ds.params, dates.value, ds.tree);
  }

  class InventoryModule {
    var datasets: map<string, Dataset>

    /** Every stored dataset is a faithful generation with matching indexes. */
    ghost predicate Valid()
      reads this
    {
      forall id :: id in datasets ==> DatasetOk(datasets[id])
    }

    constructor()
      ensures Valid() && datasets == map[]
    {
      datasets := map[];
    }

    /**
     * generateAndIndex: generate, index and store under the requested id (or
     * the random one when none is given), replacing any dataset stored there.
     */
    method GenerateAndIndex(params: Option<Params>, requestedId: Option<string>, randomId: string)
      returns (r: Result<Generated>)
      requires Valid()
      modifies this
      ensures Valid()
      ensures params.None? ==> r == Err(MissingArgument) && datasets == old(datasets)
      ensures params.Some? && GenError(params.value).Some? ==>
        r == Err(GenError(params.value).value) && datasets == old(datasets)
      ensures params.Some? && GenError(params.value).None? ==>
        var id := if requestedId.Some? then requestedId.value else randomId;
        id in datasets && r == Ok(Generated(id, datasets[id].counts))
        && datasets == old(datasets)[id := datasets[id]]
        && datasets[id].params == params.value
    {
      if params.None? {
        return Err(MissingArgument);
      }
      var p := params.value;
      var id := if requestedId.Some? then requestedId.value else randomId;
      var g := GenerateAndReduce(p);
      if g.Err? {
        return Err(g.error);
      }
      var ix := BuildIndexes(g.value.tree);
      var ds := Dataset(p, g.value.tree, ix, Counts(g.value.items, g.value.days));
      datasets := datasets[id := ds];
      return Ok(Generated(id, ds.counts));
    }

    /** getLanguages: the languages of the dataset's tree, in ascending order. */
    function GetLanguages(datasetId: Option<string>): (r: Result<seq<string>>)
      reads this
      requires Valid()
      ensures datasetId.None? ==> r == Err(MissingArgument)
      ensures datasetId.Some? && datasetId.value !in datasets ==> r == Err(NotFound)
      ensures datasetId.Some? && datasetId.value in datasets ==>
        r == Ok(SortedKeys(datasets[datasetId.value].tree.Keys))
    {
      if datasetId.None? then Err(MissingArgument)
      else if datasetId.value !in datasets then Err(NotFound)
      else Ok(datasets[datasetId.value].indexes.languages)
    }

    /** getFormats: the language's formats in ascending order, none for an unknown language. */
    function GetFormats(datasetId: Option<string>, languageCode: Option<string>): (r: Result<seq<string>>)
      reads this
      requires Valid()
      ensures datasetId.None? ==> r == Err(MissingArgument)
      ensures datasetId.Some? && datasetId.value !in datasets ==> r == Err(NotFound)
      ensures datasetId.Some? && datasetId.value in datasets && languageCode.None? ==> r == Err(MissingArgument)
      ensures datasetId.Some? && datasetId.value in datasets && languageCode.Some? ==>
        r == Ok(SortedKeys(FormatsUnder(datasets[datasetId.value].tree, languageCode.value)))
    {
      if datasetId.None? then Err(MissingArgument)
      else if datasetId.value !in datasets then Err(NotFound)
      else if languageCode.None? then Err(MissingArgument)
      else
        var ds := datasets[datasetId.value];
        FormatsForTree(ds.tree, ds.indexes, languageCode.value);
        Ok(FormatsFor(ds.indexes, languageCode.value))
    }

    /** getDates: the (language, format)'s dates in ascending order, none for an unknown pair. */
    function GetDates(datasetId: Option<string>, languageCode: Option<string>, formatCode: Option<string>)
      : (r: Result<seq<string>>)
      reads this
      requires Valid()
      ensures datasetId.None? ==> r == Err(MissingArgument)
      ensures datasetId.Some? && datasetId.value !in datasets ==> r == Err(NotFound)
      ensures datasetId.Some? && datasetId.value in datasets && (languageCode.None? || formatCode.None?) ==>
        r == Err(MissingArgument)
      ensures datasetId.Some? && datasetId.value in datasets && languageCode.Some? && formatCode.Some? ==>
        r == Ok(SortedKeys(DatesUnder(datasets[datasetId.value].tree, languageCode.value, formatCode.value)))
    {
      if datasetId.None? then Err(MissingArgument)
      else if datasetId.value !in datasets then Err(NotFound)
      else if languageCode.None? || formatCode.None? then Err(MissingArgument)
      else
        var ds := datasets[datasetId.value];
        DatasetCodesColonFree(ds);
        DatesForTree(ds.tree, ds.indexes, languageCode.value, formatCode.value);
        Ok(DatesFor(ds.indexes, languageCode.value, formatCode.value))
    }

    /** getInventoryFor: the slice of the dataset's tree for one (language, format, date). */
    method GetInventoryFor(datasetId: Option<string>, languageCode: Option<string>,
                           formatCode: Option<string>, date: Option<string>)
      returns (r: Result<Slice>)
      requires Valid()
      ensures datasetId.None? ==> r == Err(MissingArgument)
      ensures datasetId.Some? && datasetId.value !in datasets ==> r == Err(NotFound)
      ensures datasetId.Some? && datasetId.value in datasets && (languageCode.None? || formatCode.None? || date.None?) ==>
        r == Err(MissingArgument)
      ensures datasetId.Some? && datasetId.value in datasets && languageCode.Some? && formatCode.Some? && date.Some? ==>
        r == Ok(SliceOf(datasets[datasetId.value].tree, languageCode.value, formatCode.value, date.value))
    {
      if datasetId.None? {
        return Err(MissingArgument);
      }
      if datasetId.value !in datasets {
        return Err(NotFound);
      }
      if languageCode.None? || formatCode.None? || date.None? {
        return Err(MissingArgument);
      }
      var s := CollectSlice(datasets[datasetId.value].tree, languageCode.value, formatCode.value, date.value);
      return Ok(s);
    }

    /** destroyDataset: forget that id only; an unknown id is not an error. */
    method DestroyDataset(datasetId: Option<string>) returns (r: Result<()>)
      requires Valid()
      modifies this
      ensures Valid()
      ensures datasetId.None? ==> r == Err(MissingArgument) && datasets == old(datasets)
      ensures datasetId.Some? ==> r == Ok(()) && datasets == old(datasets) - {datasetId.value}
    {
      if datasetId.None? {
        return Err(MissingArgument);
      }
      datasets := datasets - {datasetId.value};
      return Ok(());
    }
  }
}
