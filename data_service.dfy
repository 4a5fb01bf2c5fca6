/**
 * The two lazy module-level caches of the data service: the workbook, read
 * from the data file on first use and kept for the life of the process, and
 * the map from sheet name to normalised rows, filled on first request for a
 * sheet and never evicted.
 */
module DataService {
  import opened Wrappers
  import opened RowNormalizer

  /**
   * The parsed spreadsheet as `XLSX.readFile` returns it: the sheet names in
   * file order and, per name, the rows `sheet_to_json` (with `defval: null`)
   * makes of that sheet.
   */
  datatype Workbook = Workbook(sheetNames: seq<string>, sheets: map<string, seq<Row>>)

  /** Why a request fails: the data file cannot be read, or the requested sheet does not exist. */
  datatype LoadError = FileReadError | SheetNotFound

  /**
   * `sheetName || workbook.SheetNames[0]`: the argument when it is truthy,
   * otherwise the first sheet's name; nothing when the argument is absent or
   * empty and the workbook has no sheets (`undefined` in the source).
   */
  function ResolveSheetName(sheetName: Option<string>, names: seq<string>): (r: Option<string>)
    ensures sheetName.Some? && sheetName.value != "" ==> r == sheetName
    ensures (sheetName.None? || sheetName.value == "") ==> (r.Some? <==> |names| > 0)
    ensures (sheetName.None? || sheetName.value == "") && r.Some? ==> r.value == names[0]
  {
    if sheetName.Some? && sheetName.value != "" then sheetName
    else if |names| > 0 then Some(names[0])
    else None
  }

  /** The workbook in effect: the cached one if any, otherwise what reading the file gives. */
  function EffectiveWorkbook(cached: Option<Workbook>, disk: Option<Workbook>): Option<Workbook> {
    if cached.Some? then cached else disk
  }

  /**
   * What `loadMaterialData` resolves to without any cache: read the workbook,
   * resolve the sheet name, normalise that sheet's rows.
   */
  function LoadSheet(wb: Option<Workbook>, sheetName: Option<string>): Result<seq<Record>, LoadError> {
    if wb.None? then Failure(FileReadError)
    else
      match ResolveSheetName(sheetName, wb.value.sheetNames)
      case None => Failure(SheetNotFound)
      case Some(name) =>
        if name in wb.value.sheets then Success(Normalize(wb.value.sheets[name]))
        else Failure(SheetNotFound)
  }

  /** Every cached sheet is the normalisation of that sheet of the workbook; with no workbook nothing is cached. */
  ghost predicate Coherent(wb: Option<Workbook>, cache: map<string, seq<Record>>) {
    forall name | name in cache ::
      && wb.Some?
      && name in wb.value.sheets
      && cache[name] == Normalize(wb.value.sheets[name])
  }

  /** Storing a freshly normalised sheet keeps the cache coherent. */
  lemma CoherentInsert(wb: Workbook, cache: map<string, seq<Record>>, name: string)
    requires Coherent(Some(wb), cache) && name in wb.sheets
    ensures Coherent(Some(wb), cache[name := Normalize(wb.sheets[name])])
  {
  }

  /**
   * A cache hit answers what loading the sheet afresh would, and storing the
   * answer again would leave the cache as it is.
   */
  lemma CacheHitIsLoad(wb: Workbook, cache: map<string, seq<Record>>, sheetName: Option<string>, name: string)
    requires Coherent(Some(wb), cache)
    requires ResolveSheetName(sheetName, wb.sheetNames) == Some(name) && name in cache
    ensures LoadSheet(Some(wb), sheetName) == Success(cache[name])
    ensures cache[name := cache[name]] == cache
  {
    assert name in wb.sheets && cache[name] == Normalize(wb.sheets[name]);
  }

  /** The module state of the data service: `workbookCache` and `sheetCache`. */
  class Service {
    var workbookCache: Option<Workbook>
    var sheetCache: map<string, seq<Record>>
    /** How many times the data file has been read successfully. */
    ghost var fileLoads: nat

    /**
     * The file is read successfully at most once, and every cached sheet is
     * the normalisation of that sheet of the cached workbook.
     */
    ghost predicate Valid()
      reads this
    {
      && fileLoads == (if workbookCache.Some? then 1 else 0)
      && Coherent(workbookCache, sheetCache)
    }

    /** Process start: `let workbookCache = null` and `const sheetCache = new Map()`. */
    constructor ()
      ensures Valid()
      ensures workbookCache == None && sheetCache == map[] && fileLoads == 0
    {
      workbookCache := None;
      sheetCache := map[];
      fileLoads := 0;
    }

    /**
     * `getWorkbook`: read the file only while nothing is cached; once a read
     * has succeeded, return the stored workbook and ignore the file.
     * `disk` is what `XLSX.readFile` would return now (`None`: it throws).
     */
    method GetWorkbook(disk: Option<Workbook>) returns (r: Result<Workbook, LoadError>)
      requires Valid()
      modifies this
      ensures Valid()
      ensures workbookCache == EffectiveWorkbook(old(workbookCache), disk)
      ensures r == (if workbookCache.Some? then Success(workbookCache.value) else Failure(FileReadError))
      ensures old(workbookCache).Some? ==> r == Success(old(workbookCache).value)
      ensures fileLoads == old(fileLoads) + (if old(workbookCache).None? && disk.Some? then 1 else 0)
      ensures sheetCache == old(sheetCache)
    {
      if workbookCache.None? {
        workbookCache := disk;
        if disk.Some? {
          fileLoads := fileLoads + 1;
        }
      }
      if workbookCache.Some? {
        r := Success(workbookCache.value);
      } else {
        r := Failure(FileReadError);
      }
    }

    /** `getSheetNames`: the workbook's sheet names in file order. */
    method GetSheetNames(disk: Option<Workbook>) returns (r: Result<seq<string>, LoadError>)
      requires Valid()
      modifies this
      ensures Valid()
      ensures workbookCache == EffectiveWorkbook(old(workbookCache), disk)
      ensures r == (if workbookCache.Some? then Success(workbookCache.value.sheetNames) else Failure(FileReadError))
      ensures sheetCache == old(sheetCache)
    {
      var wb := GetWorkbook(disk);
      if wb.Success? {
        r := Success(wb.value.sheetNames);
      } else {
        r := Failure(wb.error);
      }
    }

    /**
     * `loadMaterialData`: on a cache hit return the stored records and change
     * nothing; on a miss normalise the sheet and store it under the resolved
     * name; on a failure leave the sheet cache alone. Either way the result is
     * what loading without a cache gives.
     */
    method LoadMaterialData(sheetName: Option<string>, disk: Option<Workbook>)
      returns (r: Result<seq<Record>, LoadError>)
      requires Valid()
      modifies this
      ensures Valid()
      ensures workbookCache == EffectiveWorkbook(old(workbookCache), disk)
      ensures r == LoadSheet(workbookCache, sheetName)
      ensures r.Failure? ==> sheetCache == old(sheetCache)
      ensures r.Success? ==>
        && workbookCache.Some?
        && var name := ResolveSheetName(sheetName, workbookCache.value.sheetNames).value;
        && sheetCache == old(sheetCache)[name := r.value]
        && (name in old(sheetCache) ==> r.value == old(sheetCache)[name] && sheetCache == old(sheetCache))
    {
      var wb := GetWorkbook(disk);
      if wb.Failure? {
        return Failure(wb.error);
      }
      var name := ResolveSheetName(sheetName, wb.value.sheetNames);
      if name.None? {
        return Failure(SheetNotFound);
      }
      assert workbookCache == Some(wb.value);
      if name.value in sheetCache {
        CacheHitIsLoad(wb.value, sheetCache, sheetName, name.value);
        return Success(sheetCache[name.value]);
      }
      if name.value !in wb.value.sheets {
        return Failure(SheetNotFound);
      }
      var normalized := Normalize(wb.value.sheets[name.value]);
      assert LoadSheet(workbookCache, sheetName) == Success(normalized);
      StoreSheet(name.value, normalized);
      r := Success(normalized);
    }

    /** `sheetCache.set(name, normalized)` for a sheet of the cached workbook. */
    method StoreSheet(name: string, records: seq<Record>)
      requires Valid() && workbookCache.Some? && name in workbookCache.value.sheets
      requires records == Normalize(workbookCache.value.sheets[name])
      modifies this
      ensures Valid()
      ensures workbookCache == old(workbookCache)
      ensures sheetCache == old(sheetCache)[name := records]
    {
      CoherentInsert(workbookCache.value, sheetCache, name);
      sheetCache := sheetCache[name := records];
    }
  }

  /**
   * Two requests in a row: once the first has succeeded (or has found the
   * workbook but not the sheet), the second gives the same answer whatever
   * the file holds by then.
   */
  method LoadTwice(s: Service, sheetName: Option<string>, disk1: Option<Workbook>, disk2: Option<Workbook>)
    returns (r1: Result<seq<Record>, LoadError>, r2: Result<seq<Record>, LoadError>)
    requires s.Valid()
    modifies s
    ensures s.Valid()
    ensures r1 != Failure(FileReadError) ==> r2 == r1
  {
    r1 := s.LoadMaterialData(sheetName, disk1);
    r2 := s.LoadMaterialData(sheetName, disk2);
  }

  /** Once the workbook has been read, the sheet list never changes. */
  method SheetNamesTwice(s: Service, disk1: Option<Workbook>, disk2: Option<Workbook>)
    returns (r1: Result<seq<string>, LoadError>, r2: Result<seq<string>, LoadError>)
    requires s.Valid()
    modifies s
    ensures s.Valid() && s.fileLoads <= 1
    ensures r1.Success? ==> r2 == r1
  {
    r1 := s.GetSheetNames(disk1);
    r2 := s.GetSheetNames(disk2);
  }
}
