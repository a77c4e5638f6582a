/**
 * Selection rules for tools metadata published in simplestreams format
 * (environs/tools/simplestreams.go): the product ids a tools constraint asks
 * for, the product id of one metadata record, the exclusion of the official
 * tools location from the data sources, and the rule that decides which
 * metadata records of a source are added to the records already found.
 *
 * The helpers this file calls from other packages are parameters:
 *  - simplestreams.SeriesVersion is a partial lookup `map<string, string>`
 *    from series name to series version;
 *  - version.MustParse is `parse: string -> Option<Number>`, and reaching it
 *    with a string it cannot parse (a panic) is excluded by a precondition;
 *  - version.Number.IsDev is `isDev: Number -> bool`;
 *  - a data source is a value of the type parameter S, and its URL method is
 *    `url: (S, string) -> string`.
 */
module Tools {
  import opened Wrappers

  /** Every product id starts with this. */
  const ProductIdPrefix := "com.ubuntu.juju:"

  /** Data sources whose base URL starts with this are skipped. */
  const DefaultToolsURL := "https://juju.canonical.com/tools"

  /** version.Number. */
  datatype Number = Number(major: int, minor: int, patch: int, build: int)

  /** version.Zero, which marks a constraint that is not for one exact version. */
  const Zero := Number(0, 0, 0, 0)

  /** The series and architectures of simplestreams.LookupParams. */
  datatype LookupParams = LookupParams(series: seq<string>, arches: seq<string>)

  datatype ToolsConstraint = ToolsConstraint(
    params: LookupParams,
    version: Number,
    majorVersion: int,
    minorVersion: int,
    released: bool)

  /** simplestreams.LookupConstraint: either a *ToolsConstraint or some other constraint. */
  datatype LookupConstraint = ToolsLookup(tc: ToolsConstraint) | OtherLookup(other: LookupParams)
  {
    function Params(): LookupParams {
      match this
      case ToolsLookup(tc) => tc.params
      case OtherLookup(p) => p
    }
  }

  /** The error simplestreams.SeriesVersion returns for a series it does not know. */
  datatype SeriesError = UnknownSeries(series: string)

  /** One tools tarball. Only FullPath is ever written by this file. */
  class ToolsMetadata {
    const release: string
    const version: string
    const arch: string
    const size: int
    const path: string
    var fullPath: string
    const fileType: string
    const sha256: string

    constructor (release: string, version: string, arch: string, size: int,
                 path: string, fileType: string, sha256: string)
      ensures this.release == release && this.version == version && this.arch == arch
      ensures this.size == size && this.path == path && this.fileType == fileType
      ensures this.sha256 == sha256 && fullPath == ""
    {
      this.release, this.version, this.arch := release, version, arch;
      this.size, this.path, this.fileType, this.sha256 := size, path, fileType, sha256;
      fullPath := "";
    }
  }

  // ---------------------------------------------------------------------------
  // Constraint constructors

  function NewVersionedToolsConstraint(vers: string, params: LookupParams,
                                       parse: string -> Option<Number>): (tc: ToolsConstraint)
    requires parse(vers).Some?
    ensures tc.params == params && tc.version == parse(vers).value
  {
    ToolsConstraint(params, parse(vers).value, 0, 0, false)
  }

  function NewGeneralToolsConstraint(majorVersion: int, minorVersion: int, released: bool,
                                     params: LookupParams): (tc: ToolsConstraint)
    ensures tc.params == params && tc.version == Zero
  {
    ToolsConstraint(params, Zero, majorVersion, minorVersion, released)
  }

  // ---------------------------------------------------------------------------
  // Product ids

  /** The id "com.ubuntu.juju:<series version>:<arch>". */
  function ProductId(seriesVersion: string, arch: string): string {
    ProductIdPrefix + seriesVersion + ":" + arch
  }

  /** Every series has a version. */
  ghost predicate Resolves(series: seq<string>, seriesVersions: map<string, string>) {
    forall s :: s in series ==> s in seriesVersions
  }

  /** The index of the first series without a version. */
  function FirstUnresolved(series: seq<string>, seriesVersions: map<string, string>): (i: nat)
    requires !Resolves(series, seriesVersions)
    ensures i < |series| && series[i] !in seriesVersions
    ensures forall k :: 0 <= k < i ==> series[k] in seriesVersions
  {
    if series[0] !in seriesVersions then 0
    else
      assert !Resolves(series[1..], seriesVersions) by {
        var s :| s in series && s !in seriesVersions;
        assert s in series[1..];
      }
      1 + FirstUnresolved(series[1..], seriesVersions)
  }

  /** The ids for one series version, one per architecture, in architecture order. */
  function ArchIds(seriesVersion: string, arches: seq<string>): seq<string> {
    seq(|arches|, j requires 0 <= j < |arches| => ProductId(seriesVersion, arches[j]))
  }

  /** The ids of all series, series after series, each with all architectures. */
  function AllIds(series: seq<string>, arches: seq<string>, seriesVersions: map<string, string>): seq<string>
    requires Resolves(series, seriesVersions)
  {
    if series == [] then []
    else
      AllIds(series[..|series| - 1], arches, seriesVersions)
      + ArchIds(seriesVersions[series[|series| - 1]], arches)
  }

  lemma {:induction false} AllIdsLength(series: seq<string>, arches: seq<string>,
                                        seriesVersions: map<string, string>)
    requires Resolves(series, seriesVersions)
    ensures |AllIds(series, arches, seriesVersions)| == |series| * |arches|
  {
    if series != [] {
      var n := |series|;
      AllIdsLength(series[..n - 1], arches, seriesVersions);
      assert (n - 1) * |arches| + |arches| == n * |arches|;
    }
  }

  /** The id at position i * |arches| + j belongs to series i and architecture j. */
  lemma {:induction false} AllIdsAt(series: seq<string>, arches: seq<string>,
                                    seriesVersions: map<string, string>, i: nat, j: nat)
    requires Resolves(series, seriesVersions)
    requires i < |series| && j < |arches|
    ensures i * |arches| + j < |AllIds(series, arches, seriesVersions)|
    ensures AllIds(series, arches, seriesVersions)[i * |arches| + j]
            == ProductId(seriesVersions[series[i]], arches[j])
  {
    var n, a := |series|, |arches|;
    var init := series[..n - 1];
    AllIdsLength(init, arches, seriesVersions);
    AllIdsLength(series, arches, seriesVersions);
    if i < n - 1 {
      AllIdsAt(init, arches, seriesVersions, i, j);
      assert i * a + a <= (n - 1) * a by {
        assert i + 1 <= n - 1;
        MulMonotone(i + 1, n - 1, a);
      }
    } else {
      assert i * a + j == (n - 1) * a + j;
    }
  }

  lemma MulMonotone(x: nat, y: nat, a: nat)
    requires x <= y
    ensures x * a <= y * a
  {
  }

  /** ToolsConstraint.Ids: the product ids for all series and architectures. */
  method Ids(tc: ToolsConstraint, seriesVersions: map<string, string>)
    returns (r: Result<seq<string>, SeriesError>)
    ensures Resolves(tc.params.series, seriesVersions)
            ==> r == Success(AllIds(tc.params.series, tc.params.arches, seriesVersions))
    ensures !Resolves(tc.params.series, seriesVersions)
            ==> r == Failure(UnknownSeries(tc.params.series[FirstUnresolved(tc.params.series, seriesVersions)]))
  {
    var series, arches := tc.params.series, tc.params.arches;
    var allIds: seq<string> := [];
    var s := 0;
    while s < |series|
      invariant 0 <= s <= |series|
      invariant forall k :: 0 <= k < s ==> series[k] in seriesVersions
      invariant Resolves(series[..s], seriesVersions)
      invariant allIds == AllIds(series[..s], arches, seriesVersions)
    {
      var name := series[s];
      if name !in seriesVersions {
        assert !Resolves(series, seriesVersions);
        ghost var first := FirstUnresolved(series, seriesVersions);
        assert first == s;
        return Failure(UnknownSeries(name));
      }
      var version := seriesVersions[name];
      var ids := new string[|arches|];
      for i := 0 to |arches|
        invariant forall k :: 0 <= k < i ==> ids[k] == ProductId(version, arches[k])
      {
        ids[i] := ProductId(version, arches[i]);
      }
      assert ids[..] == ArchIds(version, arches);
      assert series[..s + 1][..s] == series[..s];
      allIds := allIds + ids[..];
      s := s + 1;
    }
    assert series[..s] == series;
    return Success(allIds);
  }

  /** ToolsMetadata.productId. */
  function ProductIdOf(t: ToolsMetadata, seriesVersions: map<string, string>): (r: Result<string, SeriesError>)
    ensures r.Failure? <==> t.release !in seriesVersions
    ensures r.Failure? ==> r.error == UnknownSeries(t.release)
  {
    if t.release !in seriesVersions then Failure(UnknownSeries(t.release))
    else Success(ProductId(seriesVersions[t.release], t.arch))
  }

  /** A record's product id is the id Ids lists for its series and architecture. */
  lemma ProductIdOfAgreesWithIds(t: ToolsMetadata, tc: ToolsConstraint,
                                 seriesVersions: map<string, string>, i: nat, j: nat)
    requires Resolves(tc.params.series, seriesVersions)
    requires i < |tc.params.series| && j < |tc.params.arches|
    requires t.release == tc.params.series[i] && t.arch == tc.params.arches[j]
    ensures i * |tc.params.arches| + j < |AllIds(tc.params.series, tc.params.arches, seriesVersions)|
    ensures ProductIdOf(t, seriesVersions)
            == Success(AllIds(tc.params.series, tc.params.arches, seriesVersions)[i * |tc.params.arches| + j])
  {
    AllIdsAt(tc.params.series, tc.params.arches, seriesVersions, i, j);
  }

  // ---------------------------------------------------------------------------
  // Excluding the official tools location

  predicate IsDefaultSource<S>(source: S, url: (S, string) -> string) {
    DefaultToolsURL <= url(source, "")
  }

  /** The sources not at the official tools location, in their original order. */
  function NonDefault<S>(sources: seq<S>, url: (S, string) -> string): (r: seq<S>)
    ensures |r| <= |sources|
    ensures forall i :: 0 <= i < |r| ==> !IsDefaultSource(r[i], url)
  {
    if sources == [] then []
    else
      var last := sources[|sources| - 1];
      NonDefault(sources[..|sources| - 1], url) + (if IsDefaultSource(last, url) then [] else [last])
  }

  /** A source is kept exactly when it is not at the official tools location. */
  lemma {:induction false} NonDefaultMembership<S>(sources: seq<S>, url: (S, string) -> string, x: S)
    ensures x in NonDefault(sources, url) <==> x in sources && !IsDefaultSource(x, url)
  {
    if sources != [] {
      var init := sources[..|sources| - 1];
      NonDefaultMembership(init, url, x);
      assert sources == init + [sources[|sources| - 1]];
    }
  }

  /** Filtering a concatenation filters each part: the order of what is kept never changes. */
  lemma {:induction false} NonDefaultAppend<S>(a: seq<S>, b: seq<S>, url: (S, string) -> string)
    ensures NonDefault(a + b, url) == NonDefault(a, url) + NonDefault(b, url)
  {
    if b != [] {
      var init := b[..|b| - 1];
      NonDefaultAppend(a, init, url);
      assert (a + b)[..|a + b| - 1] == a + init;
    } else {
      assert a + b == a;
    }
  }

  /** Excluding twice is excluding once. */
  lemma {:induction false} NonDefaultIdempotent<S>(sources: seq<S>, url: (S, string) -> string)
    ensures NonDefault(NonDefault(sources, url), url) == NonDefault(sources, url)
  {
    if sources != [] {
      var init, last := sources[..|sources| - 1], sources[|sources| - 1];
      NonDefaultIdempotent(init, url);
      var kept := if IsDefaultSource(last, url) then [] else [last];
      NonDefaultAppend(NonDefault(init, url), kept, url);
      if kept != [] {
        assert kept[..0] == [];
      }
    }
  }

  /** excludeDefaultSource. */
  method ExcludeDefaultSource<S>(sources: seq<S>, url: (S, string) -> string) returns (result: seq<S>)
    ensures result == NonDefault(sources, url)
  {
    result := [];
    for i := 0 to |sources|
      invariant result == NonDefault(sources[..i], url)
    {
      var source := sources[i];
      assert sources[..i + 1][..i] == sources[..i];
      if !(DefaultToolsURL <= url(source, "")) {
        result := result + [source];
      }
    }
    assert sources[..|sources|] == sources;
  }

  // ---------------------------------------------------------------------------
  // Matching records

  /** The key "<release>-<version>-<arch>" under which records are compared. */
  function RecordKey(t: ToolsMetadata): string {
    t.release + "-" + t.version + "-" + t.arch
  }

  function KeysOf(records: seq<ToolsMetadata>): set<string> {
    set t | t in records :: RecordKey(t)
  }

  /** Whether a parsed tools version passes a tools constraint. */
  predicate VersionPasses(tc: ToolsConstraint, v: Number, isDev: Number -> bool) {
    if tc.version == Zero then
      !(tc.released && isDev(v))
      && tc.majorVersion == v.major
      && (tc.minorVersion >= 0 ==> tc.minorVersion == v.minor)
    else
      tc.version == v
  }

  /** Whether a record belongs to the constraint's series and passes its version test. */
  predicate Matches(cons: LookupConstraint, t: ToolsMetadata,
                    parse: string -> Option<Number>, isDev: Number -> bool) {
    && t.release in cons.Params().series
    && match cons
       case OtherLookup(_) => true
       case ToolsLookup(tc) => parse(t.version).Some? && VersionPasses(tc, parse(t.version).value, isDev)
  }

  /** Whether a record is added to an accumulator holding records with the given keys. */
  predicate Selected(cons: LookupConstraint, t: ToolsMetadata, parse: string -> Option<Number>,
                     isDev: Number -> bool, existing: set<string>) {
    Matches(cons, t, parse, isDev) && RecordKey(t) !in existing
  }

  /** A constraint for one exact, non-zero version admits the records of that version in its series. */
  lemma VersionedConstraintMatches(vers: string, params: LookupParams, parse: string -> Option<Number>,
                                   isDev: Number -> bool, t: ToolsMetadata)
    requires parse(vers).Some? && parse(vers).value != Zero
    ensures Matches(ToolsLookup(NewVersionedToolsConstraint(vers, params, parse)), t, parse, isDev)
            <==> t.release in params.series && parse(t.version) == parse(vers)
  {
  }

  /**
   * A general constraint admits the records of its series whose major version
   * is the given one, whose minor version is the given one unless that is
   * negative, and that are not development builds when only released tools
   * are wanted.
   */
  lemma GeneralConstraintMatches(majorVersion: int, minorVersion: int, released: bool, params: LookupParams,
                                 parse: string -> Option<Number>, isDev: Number -> bool, t: ToolsMetadata)
    ensures Matches(ToolsLookup(NewGeneralToolsConstraint(majorVersion, minorVersion, released, params)),
                    t, parse, isDev)
            <==> && t.release in params.series
                 && parse(t.version).Some?
                 && parse(t.version).value.major == majorVersion
                 && (minorVersion >= 0 ==> parse(t.version).value.minor == minorVersion)
                 && (released ==> !isDev(parse(t.version).value))
  {
  }

  /**
   * A versioned constraint whose version parses to version.Zero is not exact:
   * it behaves as the general constraint for major 0, minor 0, all builds.
   */
  lemma VersionedZeroConstraintIsGeneral(vers: string, params: LookupParams, parse: string -> Option<Number>,
                                         isDev: Number -> bool, t: ToolsMetadata)
    requires parse(vers) == Some(Zero)
    ensures Matches(ToolsLookup(NewVersionedToolsConstraint(vers, params, parse)), t, parse, isDev)
            <==> Matches(ToolsLookup(NewGeneralToolsConstraint(0, 0, false, params)), t, parse, isDev)
  {
  }

  /** A constraint that is not a tools constraint admits every record of its series. */
  lemma OtherConstraintMatches(params: LookupParams, parse: string -> Option<Number>,
                               isDev: Number -> bool, t: ToolsMetadata)
    ensures Matches(OtherLookup(params), t, parse, isDev) <==> t.release in params.series
  {
  }

  /** version.MustParse does not panic on any record it is applied to. */
  ghost predicate VersionsParse(cons: LookupConstraint, tools: map<string, ToolsMetadata>,
                                parse: string -> Option<Number>) {
    cons.ToolsLookup? ==>
      forall k :: k in tools && tools[k].release in cons.Params().series ==> parse(tools[k].version).Some?
  }

  /** The toolsMap of appendMatchingTools: the accumulated records by key. */
  method IndexByKey(records: seq<ToolsMetadata>) returns (index: map<string, ToolsMetadata>)
    ensures index.Keys == KeysOf(records)
    ensures forall t :: t in records ==> RecordKey(t) in index
    ensures forall key :: key in index ==> index[key] in records && RecordKey(index[key]) == key
  {
    index := map[];
    for i := 0 to |records|
      invariant index.Keys == KeysOf(records[..i])
      invariant forall key :: key in index ==> index[key] in records[..i] && RecordKey(index[key]) == key
    {
      var tm := records[i];
      assert records[..i + 1] == records[..i] + [tm];
      index := index[RecordKey(tm) := tm];
    }
    assert records[..|records|] == records;
  }

  /**
   * The keys already visited (those of `tools` not in `remaining`) that were
   * appended, each once, are exactly the visited keys whose records are selected.
   */
  ghost predicate SelectedSoFar(cons: LookupConstraint, tools: map<string, ToolsMetadata>,
                                parse: string -> Option<Number>, isDev: Number -> bool,
                                existing: set<string>, remaining: set<string>, order: seq<string>,
                                added: seq<ToolsMetadata>) {
    && |added| == |order|
    && (forall i :: 0 <= i < |order| ==> order[i] in tools && order[i] !in remaining && added[i] == tools[order[i]])
    && (forall i, j :: 0 <= i < j < |order| ==> order[i] != order[j])
    && (forall k :: k in tools && k !in remaining ==>
          (k in order <==> Selected(cons, tools[k], parse, isDev, existing)))
    && (forall i :: 0 <= i < |added| ==> Selected(cons, added[i], parse, isDev, existing))
  }

  lemma SkipKeepsSelection(cons: LookupConstraint, tools: map<string, ToolsMetadata>,
                           parse: string -> Option<Number>, isDev: Number -> bool,
                           existing: set<string>, remaining: set<string>, order: seq<string>,
                           added: seq<ToolsMetadata>, k: string)
    requires SelectedSoFar(cons, tools, parse, isDev, existing, remaining, order, added)
    requires k in remaining && k in tools && !Selected(cons, tools[k], parse, isDev, existing)
    ensures SelectedSoFar(cons, tools, parse, isDev, existing, remaining - {k}, order, added)
  {
  }

  lemma AppendKeepsSelection(cons: LookupConstraint, tools: map<string, ToolsMetadata>,
                             parse: string -> Option<Number>, isDev: Number -> bool,
                             existing: set<string>, remaining: set<string>, order: seq<string>,
                             added: seq<ToolsMetadata>, k: string)
    requires SelectedSoFar(cons, tools, parse, isDev, existing, remaining, order, added)
    requires k in remaining && k in tools && Selected(cons, tools[k], parse, isDev, existing)
    ensures SelectedSoFar(cons, tools, parse, isDev, existing, remaining - {k}, order + [k], added + [tools[k]])
  {
  }

  /** Once every key has been visited, the appended records are exactly the selected ones. */
  lemma SelectionDone(cons: LookupConstraint, tools: map<string, ToolsMetadata>,
                      parse: string -> Option<Number>, isDev: Number -> bool,
                      matchingTools: seq<ToolsMetadata>, order: seq<string>, added: seq<ToolsMetadata>)
    requires SelectedSoFar(cons, tools, parse, isDev, KeysOf(matchingTools), {}, order, added)
    ensures forall k :: k in tools ==> (k in order <==> Selected(cons, tools[k], parse, isDev, KeysOf(matchingTools)))
    ensures forall i :: 0 <= i < |added| ==>
              && added[i].release in cons.Params().series
              && RecordKey(added[i]) !in KeysOf(matchingTools)
              && added[i] !in matchingTools
  {
    forall i | 0 <= i < |added|
      ensures added[i] !in matchingTools
    {
      var t := added[i];
      assert t in matchingTools ==> RecordKey(t) in KeysOf(matchingTools);
    }
  }

  /**
   * appendMatchingTools. The map is visited in no particular order; `order`
   * lists the keys of the map entries that were appended, in the order they
   * were appended.
   */
  method AppendMatchingTools<S>(source: S, url: (S, string) -> string,
                                matchingTools: seq<ToolsMetadata>, tools: map<string, ToolsMetadata>,
                                cons: LookupConstraint,
                                parse: string -> Option<Number>, isDev: Number -> bool)
    returns (result: seq<ToolsMetadata>, ghost order: seq<string>)
    requires VersionsParse(cons, tools, parse)
    modifies tools.Values
    ensures |result| == |matchingTools| + |order|
    ensures result[..|matchingTools|] == matchingTools
    ensures forall i :: 0 <= i < |order| ==> order[i] in tools && result[|matchingTools| + i] == tools[order[i]]
    ensures forall i, j :: 0 <= i < j < |order| ==> order[i] != order[j]
    ensures forall k :: k in tools ==>
              (k in order <==> Selected(cons, tools[k], parse, isDev, KeysOf(matchingTools)))
    ensures forall i :: |matchingTools| <= i < |result| ==>
              && result[i].release in cons.Params().series
              && RecordKey(result[i]) !in KeysOf(matchingTools)
              && result[i] !in matchingTools
              && result[i].fullPath == url(source, result[i].path)
    ensures forall k :: k in tools && tools[k] !in result[|matchingTools|..] ==>
              tools[k].fullPath == old(tools[k].fullPath)
    ensures forall t :: t in matchingTools ==> t.fullPath == old(t.fullPath)
  {
    var toolsMap := IndexByKey(matchingTools);
    ghost var added;
    result, order, added := AppendUnseen(source, url, matchingTools, toolsMap, tools, cons, parse, isDev);
    SelectionDone(cons, tools, parse, isDev, matchingTools, order, added);
    assert result[|matchingTools|..] == added;
  }

  /**
   * The loop of appendMatchingTools over the map of candidate records: every
   * selected record whose key is not in toolsMap gets its FullPath and is
   * appended. `added` is what was appended.
   */
  method AppendUnseen<S>(source: S, url: (S, string) -> string,
                         matchingTools: seq<ToolsMetadata>, toolsMap: map<string, ToolsMetadata>,
                         tools: map<string, ToolsMetadata>, cons: LookupConstraint,
                         parse: string -> Option<Number>, isDev: Number -> bool)
    returns (result: seq<ToolsMetadata>, ghost order: seq<string>, ghost added: seq<ToolsMetadata>)
    requires VersionsParse(cons, tools, parse)
    modifies tools.Values
    ensures result == matchingTools + added
    ensures SelectedSoFar(cons, tools, parse, isDev, toolsMap.Keys, {}, order, added)
    ensures forall i :: 0 <= i < |added| ==> added[i].fullPath == url(source, added[i].path)
    ensures forall k :: k in tools && tools[k] !in added ==> tools[k].fullPath == old(tools[k].fullPath)
  {
    ghost var existing := toolsMap.Keys;
    result := matchingTools;
    order, added := [], [];
    var remaining := tools.Keys;
    while remaining != {}
      invariant remaining <= tools.Keys
      invariant result == matchingTools + added
      invariant SelectedSoFar(cons, tools, parse, isDev, existing, remaining, order, added)
      invariant forall i :: 0 <= i < |added| ==> added[i].fullPath == url(source, added[i].path)
      invariant forall k :: k in tools && tools[k] !in added ==> tools[k].fullPath == old(tools[k].fullPath)
      decreases remaining
    {
      var k :| k in remaining;
      ghost var visiting := remaining;
      remaining := remaining - {k};
      var tm := tools[k];
      if !Matches(cons, tm, parse, isDev) {
        SkipKeepsSelection(cons, tools, parse, isDev, existing, visiting, order, added, k);
        continue;
      }
      if RecordKey(tm) in toolsMap {
        SkipKeepsSelection(cons, tools, parse, isDev, existing, visiting, order, added, k);
      } else {
        AppendKeepsSelection(cons, tools, parse, isDev, existing, visiting, order, added, k);
        tm.fullPath := url(source, tm.path);
        result := result + [tm];
        order := order + [k];
        added := added + [tm];
      }
    }
  }

  /**
   * Once the records selected from a map have been appended, the same map
   * selects nothing more: running appendMatchingTools again on its own result
   * with the same records appends nothing.
   */
  lemma SecondPassSelectsNothing(cons: LookupConstraint, tools: map<string, ToolsMetadata>,
                                                    parse: string -> Option<Number>, isDev: Number -> bool,
                                                    matchingTools: seq<ToolsMetadata>,
                                                    result: seq<ToolsMetadata>, order: seq<string>)
    requires |result| == |matchingTools| + |order| && result[..|matchingTools|] == matchingTools
    requires forall i :: 0 <= i < |order| ==>
               order[i] in tools && result[|matchingTools| + i] == tools[order[i]]
    requires forall k :: k in tools ==>
               (k in order <==> Selected(cons, tools[k], parse, isDev, KeysOf(matchingTools)))
    ensures forall k :: k in tools ==> !Selected(cons, tools[k], parse, isDev, KeysOf(result))
  {
    forall k | k in tools
      ensures !Selected(cons, tools[k], parse, isDev, KeysOf(result))
    {
      var t := tools[k];
      if Selected(cons, t, parse, isDev, KeysOf(matchingTools)) {
        var i :| 0 <= i < |order| && order[i] == k;
        assert result[|matchingTools| + i] == t;
        assert RecordKey(t) in KeysOf(result);
      } else if Matches(cons, t, parse, isDev) {
        var u :| u in matchingTools && RecordKey(u) == RecordKey(t);
        assert u in result by {
          var j :| 0 <= j < |matchingTools| && matchingTools[j] == u;
          assert result[j] == u;
        }
      }
    }
  }
}
