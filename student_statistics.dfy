/**
 * The derived figures of the statistics page (client/src/components/StudentStatistics.tsx):
 * the records are normalised with defaults, counted per university, averaged per
 * metric, bucketed into histograms, and the ten best GPAs are listed. Rendering,
 * chart labels and `toFixed` formatting are not part of the model.
 */
module StudentStatistics {
  import opened Wrappers

  /** A record as the API returns it; every `??` in the source reads one of these optional fields. */
  datatype RawStudent = RawStudent(
    userName: Option<string>, universityName: Option<string>,
    gpa: Option<real>, attendanceRate: Option<real>, midtermExamScore: Option<real>, finalExamScore: Option<real>,
    projectAssignmentScore: Option<real>, coreCourseAverage: Option<real>,
    category: Option<string>, predikat: Option<string>, predicateEn: Option<string>, dataCategory: Option<string>)

  /** `StudentData`, the normalised record. */
  datatype StudentData = StudentData(name: string, gpa: real, attendance: real, midterm: real, final: real,
                                     project: real, core: real, category: string)

  /** `x ?? d`. */
  function OrElse<T>(x: Option<T>, d: T): T
  {
    if x.Some? then x.value else d
  }

  /** One record through the `map` at lines 62-72. */
  function Normalize(s: RawStudent): (d: StudentData)
    ensures s.userName.Some? ==> d.name == s.userName.value
    ensures s.userName.None? ==> d.name == "-"
    ensures s.gpa.Some? ==> d.gpa == s.gpa.value
    ensures s.gpa.None? ==> d.gpa == 0.0
    ensures s.attendanceRate.Some? ==> d.attendance == s.attendanceRate.value
    ensures s.attendanceRate.None? ==> d.attendance == 0.0
    ensures s.midtermExamScore.Some? ==> d.midterm == s.midtermExamScore.value
    ensures s.midtermExamScore.None? ==> d.midterm == 0.0
    ensures s.finalExamScore.Some? ==> d.final == s.finalExamScore.value
    ensures s.finalExamScore.None? ==> d.final == 0.0
    ensures s.projectAssignmentScore.Some? ==> d.project == s.projectAssignmentScore.value
    ensures s.projectAssignmentScore.None? ==> d.project == 0.0
    ensures s.coreCourseAverage.Some? ==> d.core == s.coreCourseAverage.value
    ensures s.coreCourseAverage.None? ==> d.core == 0.0
    // The category is the first present of its four sources, in the order of the `??` chain.
    ensures s.category.Some? ==> d.category == s.category.value
    ensures s.category.None? && s.predikat.Some? ==> d.category == s.predikat.value
    ensures s.category.None? && s.predikat.None? && s.predicateEn.Some? ==> d.category == s.predicateEn.value
    ensures s.category.None? && s.predikat.None? && s.predicateEn.None? && s.dataCategory.Some? ==> d.category == s.dataCategory.value
    ensures s.category.None? && s.predikat.None? && s.predicateEn.None? && s.dataCategory.None? ==> d.category == "-"
  {
    StudentData(OrElse(s.userName, "-"), OrElse(s.gpa, 0.0), OrElse(s.attendanceRate, 0.0),
                OrElse(s.midtermExamScore, 0.0), OrElse(s.finalExamScore, 0.0),
                OrElse(s.projectAssignmentScore, 0.0), OrElse(s.coreCourseAverage, 0.0),
                OrElse(s.category, OrElse(s.predikat, OrElse(s.predicateEn, OrElse(s.dataCategory, "-")))))
  }

  /** `gpaData`: every record normalised, in order; no data yet gives none. */
  function GpaData(data: Option<seq<RawStudent>>): (ds: seq<StudentData>)
    ensures data.None? ==> ds == []
    ensures data.Some? ==> |ds| == |data.value| && forall i :: 0 <= i < |ds| ==> ds[i] == Normalize(data.value[i])
  {
    if data.None? then [] else seq(|data.value|, i requires 0 <= i < |data.value| => Normalize(data.value[i]))
  }

  // ---------------------------------------------------------------------------
  // University distribution (lines 75-85)

  function UniversityOf(s: RawStudent): string
  {
    OrElse(s.universityName, "-")
  }

  function UniversityNames(data: seq<RawStudent>): (names: seq<string>)
    ensures |names| == |data|
    ensures forall i :: 0 <= i < |data| ==> names[i] == UniversityOf(data[i])
  {
    if data == [] then [] else UniversityNames(data[..|data| - 1]) + [UniversityOf(data[|data| - 1])]
  }

  /** The counts after seeing these names in order: each one found adds 1 to its entry, starting from 0. */
  function Tally(names: seq<string>): map<string, nat>
  {
    if names == [] then map[]
    else
      var counts := Tally(names[..|names| - 1]);
      var k := names[|names| - 1];
      counts[k := (if k in counts then counts[k] else 0) + 1]
  }

  /** The `forEach` at lines 76-79. */
  method UniversityCount(data: seq<RawStudent>) returns (counts: map<string, nat>)
    ensures counts == Tally(UniversityNames(data))
  {
    counts := map[];
    var i := 0;
    while i < |data|
      invariant 0 <= i <= |data|
      invariant counts == Tally(UniversityNames(data[..i]))
    {
      assert data[..i + 1][..i] == data[..i];
      var univ := UniversityOf(data[i]);
      counts := counts[univ := (if univ in counts then counts[univ] else 0) + 1];
      i := i + 1;
    }
    assert data[..|data|] == data;
  }

  /** The tally holds exactly the names seen, each with the number of its occurrences, so the counts add up to the number of names. */
  lemma {:induction false} TallyIsMultiset(names: seq<string>)
    ensures Tally(names).Keys == set i | 0 <= i < |names| :: names[i]
    ensures forall k :: k in Tally(names) ==> Tally(names)[k] == multiset(names)[k]
  {
    if names != [] {
      var init := names[..|names| - 1];
      TallyIsMultiset(init);
      assert names == init + [names[|names| - 1]];
      assert forall i :: 0 <= i < |init| ==> init[i] == names[i];
    }
  }

  // ---------------------------------------------------------------------------
  // Averages (lines 88-101)

  /** The `reduce` of a column, left to right from 0. */
  function Total(vs: seq<real>): real
  {
    if vs == [] then 0.0 else Total(vs[..|vs| - 1]) + vs[|vs| - 1]
  }

  /** `avg` before `toFixed`: the mean, or 0 with no students. */
  function Mean(vs: seq<real>): real
  {
    if |vs| > 0 then Total(vs) / |vs| as real else 0.0
  }

  predicate Within(vs: seq<real>, lo: real, hi: real)
  {
    forall i :: 0 <= i < |vs| ==> lo <= vs[i] <= hi
  }

  lemma {:induction false} TotalWithin(vs: seq<real>, lo: real, hi: real)
    requires Within(vs, lo, hi)
    ensures lo * |vs| as real <= Total(vs) <= hi * |vs| as real
  {
    if vs != [] {
      var init := vs[..|vs| - 1];
      assert Within(init, lo, hi);
      TotalWithin(init, lo, hi);
      assert lo * |vs| as real == lo * |init| as real + lo;
      assert hi * |vs| as real == hi * |init| as real + hi;
    }
  }

  /** The mean of a non-empty column lies between any bounds of its values. */
  lemma MeanWithin(vs: seq<real>, lo: real, hi: real)
    requires vs != [] && Within(vs, lo, hi)
    ensures lo <= Mean(vs) <= hi
  {
    TotalWithin(vs, lo, hi);
    var n := |vs| as real;
    assert Mean(vs) * n == Total(vs);
  }

  function GpaColumn(ds: seq<StudentData>): (vs: seq<real>)
    ensures |vs| == |ds| && forall i :: 0 <= i < |ds| ==> vs[i] == ds[i].gpa
  {
    seq(|ds|, i requires 0 <= i < |ds| => ds[i].gpa)
  }

  // ---------------------------------------------------------------------------
  // Histograms (lines 103-109, 145-192)

  /** `filter(v >= lo && v < hi).length`. */
  function Count(vs: seq<real>, lo: real, hi: real): (n: nat)
    ensures n <= |vs|
  {
    if vs == [] then 0 else Count(vs[..|vs| - 1], lo, hi) + (if lo <= vs[|vs| - 1] < hi then 1 else 0)
  }

  /** `buckets[i + 1] ?? top`. */
  function Upper(edges: seq<real>, top: real, i: nat): real
  {
    if i + 1 < |edges| then edges[i + 1] else top
  }

  /** The bucket counts: bucket i runs from its edge to the next edge, the last one to `top`. */
  function Histogram(edges: seq<real>, top: real, vs: seq<real>): (h: seq<nat>)
    ensures |h| == |edges|
    ensures forall i :: 0 <= i < |edges| ==> h[i] == Count(vs, edges[i], Upper(edges, top, i))
  {
    if edges == [] then []
    else
      var rest := Histogram(edges[1..], top, vs);
      assert forall i :: 1 <= i < |edges| ==> edges[1..][i - 1] == edges[i] && Upper(edges[1..], top, i - 1) == Upper(edges, top, i);
      [Count(vs, edges[0], Upper(edges, top, 0))] + rest
  }

  const GpaEdges: seq<real> := [0.0, 1.0, 2.0, 3.0, 4.0]
  const GpaTop: real := 4.01
  const ScoreEdges: seq<real> := [0.0, 50.0, 60.0, 70.0, 80.0, 100.0]
  const ScoreTop: real := 100.01
  const AttendanceEdges: seq<real> := [0.0, 0.5, 0.7, 0.85, 1.0]
  const AttendanceTop: real := 1.01

  predicate Ascending(edges: seq<real>, top: real)
  {
    (forall i, j :: 0 <= i < j < |edges| ==> edges[i] <= edges[j]) && (edges != [] ==> edges[|edges| - 1] <= top)
  }

  function SumCounts(h: seq<nat>): nat
  {
    if h == [] then 0 else h[0] + SumCounts(h[1..])
  }

  lemma {:induction false} CountSplit(vs: seq<real>, a: real, b: real, c: real)
    requires a <= b <= c
    ensures Count(vs, a, c) == Count(vs, a, b) + Count(vs, b, c)
  {
    if vs != [] {
      CountSplit(vs[..|vs| - 1], a, b, c);
    }
  }

  /** With ascending edges the buckets partition [first edge, top): together they count each value in it once. */
  lemma {:induction false} HistogramTotal(edges: seq<real>, top: real, vs: seq<real>)
    requires edges != [] && Ascending(edges, top)
    ensures SumCounts(Histogram(edges, top, vs)) == Count(vs, edges[0], top)
  {
    if |edges| > 1 {
      assert Ascending(edges[1..], top);
      HistogramTotal(edges[1..], top, vs);
      assert edges[1..][0] == edges[1] && Upper(edges, top, 0) == edges[1];
      CountSplit(vs, edges[0], edges[1], top);
    }
  }

  /** A single value in range lands in exactly one bucket. */
  lemma OneBucket(edges: seq<real>, top: real, v: real)
    requires edges != [] && Ascending(edges, top) && edges[0] <= v < top
    ensures SumCounts(Histogram(edges, top, [v])) == 1
  {
    HistogramTotal(edges, top, [v]);
    assert [v][..0] == [];
  }

  /** Every student's GPA in [0, 4.01) is counted once: the GPA histogram adds up to that many students. */
  lemma GpaHistogramTotal(ds: seq<StudentData>)
    ensures SumCounts(Histogram(GpaEdges, GpaTop, GpaColumn(ds))) == Count(GpaColumn(ds), 0.0, 4.01)
  {
    HistogramTotal(GpaEdges, GpaTop, GpaColumn(ds));
  }

  /** The score buckets end at 100.01, so a score of exactly 100 is counted in the last bucket only. */
  lemma PerfectScoreInLastBucket(v: real)
    requires v == 100.0
    ensures Histogram(ScoreEdges, ScoreTop, [v]) == [0, 0, 0, 0, 0, 1]
  {
    CountOne(v, 0.0, 50.0);
    CountOne(v, 50.0, 60.0);
    CountOne(v, 60.0, 70.0);
    CountOne(v, 70.0, 80.0);
    CountOne(v, 80.0, 100.0);
    CountOne(v, 100.0, 100.01);
    var h := Histogram(ScoreEdges, ScoreTop, [v]);
    assert h[0] == 0 && h[1] == 0 && h[2] == 0 && h[3] == 0 && h[4] == 0 && h[5] == 1;
  }

  lemma CountOne(v: real, lo: real, hi: real)
    ensures Count([v], lo, hi) == if lo <= v < hi then 1 else 0
  {
    assert [v][..0] == [];
  }

  // ---------------------------------------------------------------------------
  // Top 10 GPA (line 126)

  predicate SortedByGpa(ds: seq<StudentData>)
  {
    forall i, j :: 0 <= i < j < |ds| ==> ds[i].gpa >= ds[j].gpa
  }

  /** Insert into a list sorted by decreasing GPA, after every record with an equal or higher GPA. */
  function Insert(x: StudentData, s: seq<StudentData>): (r: seq<StudentData>)
    ensures |r| == |s| + 1
    ensures forall i :: 0 <= i < |r| ==> r[i] == x || r[i] in s
  {
    if s == [] || s[|s| - 1].gpa >= x.gpa then s + [x]
    else Insert(x, s[..|s| - 1]) + [s[|s| - 1]]
  }

  /** Inserting keeps the list sorted. */
  lemma {:induction false} InsertSorted(x: StudentData, s: seq<StudentData>)
    requires SortedByGpa(s)
    ensures SortedByGpa(Insert(x, s))
  {
    if s != [] && s[|s| - 1].gpa < x.gpa {
      var init, last := s[..|s| - 1], s[|s| - 1];
      InsertSorted(x, init);
      var r := Insert(x, init);
      assert forall i :: 0 <= i < |init| ==> init[i].gpa >= last.gpa;
      assert forall i :: 0 <= i < |r| ==> r[i].gpa >= last.gpa;
      assert Insert(x, s) == r + [last];
    }
  }

  /** Inserting adds exactly the one record. */
  lemma {:induction false} InsertPermutes(x: StudentData, s: seq<StudentData>)
    ensures multiset(Insert(x, s)) == multiset(s) + multiset{x}
  {
    if s != [] && s[|s| - 1].gpa < x.gpa {
      var init, last := s[..|s| - 1], s[|s| - 1];
      assert s == init + [last];
      InsertPermutes(x, init);
      assert Insert(x, s) == Insert(x, init) + [last];
    }
  }

  /** `[...gpaData].sort((a, b) => b.gpa - a.gpa)`: a copy sorted by decreasing GPA. */
  function SortByGpa(ds: seq<StudentData>): (r: seq<StudentData>)
    ensures |r| == |ds|
    ensures SortedByGpa(r) && multiset(r) == multiset(ds)
  {
    if ds == [] then []
    else
      assert ds == ds[..|ds| - 1] + [ds[|ds| - 1]];
      InsertSorted(ds[|ds| - 1], SortByGpa(ds[..|ds| - 1]));
      InsertPermutes(ds[|ds| - 1], SortByGpa(ds[..|ds| - 1]));
      Insert(ds[|ds| - 1], SortByGpa(ds[..|ds| - 1]))
  }

  function Min(a: int, b: int): int { if a <= b then a else b }

  /** `topGPAData`: the first ten of the sorted copy. */
  function TopGpa(ds: seq<StudentData>): (top: seq<StudentData>)
    ensures |top| == Min(10, |ds|)
    ensures SortedByGpa(top)
    ensures multiset(top) <= multiset(ds)
  {
    var sorted := SortByGpa(ds);
    var k := Min(10, |ds|);
    assert sorted == sorted[..k] + sorted[k..];
    sorted[..k]
  }

  /** The records left out of the top ten all have a GPA no higher than any of those in it. */
  lemma TopGpaIsTop(ds: seq<StudentData>)
    ensures var sorted := SortByGpa(ds); var k := Min(10, |ds|);
      multiset(TopGpa(ds)) + multiset(sorted[k..]) == multiset(ds)
      && forall i, j :: 0 <= i < k <= j < |sorted| ==> TopGpa(ds)[i].gpa >= sorted[j].gpa
  {
    var sorted := SortByGpa(ds);
    var k := Min(10, |ds|);
    assert sorted == sorted[..k] + sorted[k..];
  }

  // ---------------------------------------------------------------------------
  // Average GPA per university (lines 129-143)

  function NameOf(s: RawStudent): string
  {
    OrElse(s.userName, "-")
  }

  /** `data.find(d => d.user?.name === name)?.university?.name ?? "-"`. */
  function UniversityByName(data: seq<RawStudent>, name: string): string
  {
    if data == [] then "-"
    else if data[0].userName == Some(name) then UniversityOf(data[0])
    else UniversityByName(data[1..], name)
  }

  /** The students attributed to a university as written: through a lookup of the first record with the same name. */
  function StudentsByNameLookup(data: seq<RawStudent>, recs: seq<RawStudent>, u: string): seq<StudentData>
  {
    if recs == [] then []
    else
      var r := recs[|recs| - 1];
      StudentsByNameLookup(data, recs[..|recs| - 1], u)
      + (if UniversityByName(data, NameOf(r)) == u then [Normalize(r)] else [])
  }

  /** The students of a university, by each record's own university. */
  function StudentsAt(recs: seq<RawStudent>, u: string): (ss: seq<StudentData>)
    ensures |ss| == multiset(UniversityNames(recs))[u]
  {
    if recs == [] then []
    else
      var r := recs[|recs| - 1];
      assert UniversityNames(recs) == UniversityNames(recs[..|recs| - 1]) + [UniversityOf(r)];
      StudentsAt(recs[..|recs| - 1], u) + (if UniversityOf(r) == u then [Normalize(r)] else [])
  }

  function AverageGpaAsWritten(data: seq<RawStudent>, u: string): real
  {
    Mean(GpaColumn(StudentsByNameLookup(data, data, u)))
  }

  function AverageGpa(data: seq<RawStudent>, u: string): real
  {
    Mean(GpaColumn(StudentsAt(data, u)))
  }

  /** Grouping by each record's own university averages exactly as many students as `universityCount` counts. */
  lemma AverageGpaMatchesCount(data: seq<RawStudent>, u: string)
    requires u in Tally(UniversityNames(data))
    ensures |StudentsAt(data, u)| == Tally(UniversityNames(data))[u]
  {
    TallyIsMultiset(UniversityNames(data));
  }

  /** Two students of the same name at different universities are both filed under the first one's. */
  lemma NameLookupMisfiles(data: seq<RawStudent>, a: RawStudent, b: RawStudent)
    requires data == [a, b] && a.userName == Some("A") && b.userName == Some("A")
    requires a.universityName == Some("U1") && b.universityName == Some("U2")
    ensures StudentsByNameLookup(data, data, "U2") == []
    ensures |StudentsAt(data, "U2")| == 1
  {
    assert UniversityByName(data, "A") == "U1";
    assert NameOf(a) == "A" && NameOf(b) == "A";
    assert data[..1] == [a] && [a][..0] == [];
    assert StudentsByNameLookup(data, [a], "U2") == [];
    assert UniversityNames(data) == [UniversityOf(a), UniversityOf(b)];
    assert multiset(["U1", "U2"])["U2"] == 1;
  }
}
