/** `TempMat<N>`: a fixed number N of temperature channels ("cores"), each a
    series of readings. It is built from whitespace-separated numbers, turned
    into per-channel slopes by linear interpolation, and written out as one
    report per core. `f64` is modelled as `real`; the channel count N is the
    length of `channels`. */
module TempMat {
  import opened Decimal

  // ---------------------------------------------------------------------------
  // Data model
  // ---------------------------------------------------------------------------

  /** `TMFromStrError`: the token count is not a multiple of `col` (= N). */
  datatype TMFromStrError = InvalidDimensions(col: nat)

  datatype Result<T> = Ok(value: T) | Err(error: TMFromStrError)

  /** `TempMat<N>([Vec<f64>; N])`. */
  datatype TempMat = TempMat(channels: seq<seq<real>>)

  /** `Dims(usize, usize)`: the channel count and the length of channel 0. */
  datatype Dims = Dims(channels: nat, length: nat)

  /** Every channel has the same length. */
  predicate Uniform(m: TempMat) {
    forall i, j :: 0 <= i < |m.channels| && 0 <= j < |m.channels| ==>
      |m.channels[i]| == |m.channels[j]|
  }

  // ---------------------------------------------------------------------------
  // Construction
  // ---------------------------------------------------------------------------

  /** `TempMat::new`: N empty channels. */
  function New(n: nat): (m: TempMat)
    ensures |m.channels| == n && Uniform(m)
    ensures forall i :: 0 <= i < n ==> m.channels[i] == []
  {
    TempMat(seq(n, _ => []))
  }

  /** What `from_str` yields for the parsed tokens `data` and N = `n`. */
  function FromStrSpec(data: seq<real>, n: nat): Result<TempMat>
    requires n > 0
  {
    if |data| % n != 0 then Err(InvalidDimensions(n))
    else Ok(TempMat(seq(n, _ => data)))
  }

  /** `TempMat::from_str` on the tokens already parsed to numbers: the
      divisibility check comes first; then every token, in input order, is
      pushed onto every channel (a broadcast, not an N-way split). */
  method FromStr(data: seq<real>, n: nat) returns (r: Result<TempMat>)
    requires n > 0
    ensures r.Err? <==> |data| % n != 0
    ensures r.Err? ==> r.error == InvalidDimensions(n)
    ensures r.Ok? ==> |r.value.channels| == n &&
                      (forall i :: 0 <= i < n ==> r.value.channels[i] == data)
    ensures r == FromStrSpec(data, n)
  {
    var chans := new seq<real>[n](_ => []);
    if |data| % n != 0 {
      return Err(InvalidDimensions(n));
    }
    var k := 0;
    while k < |data|
      invariant 0 <= k <= |data|
      invariant forall j :: 0 <= j < n ==> chans[j] == data[..k]
    {
      var num := data[k];
      for i := 0 to n
        invariant forall j :: 0 <= j < i ==> chans[j] == data[..k + 1]
        invariant forall j :: i <= j < n ==> chans[j] == data[..k]
      {
        chans[i] := chans[i] + [num];
      }
      k := k + 1;
    }
    assert data[..k] == data;
    assert chans[..] == seq(n, _ => data);
    r := Ok(TempMat(chans[..]));
  }

  /** On success all N channels are the whole input: identical, uniform, and
      each as long as the token count (not token count / N). */
  lemma FromStrBroadcast(data: seq<real>, n: nat)
    requires n > 0 && |data| % n == 0
    ensures FromStrSpec(data, n).Ok?
    ensures var m := FromStrSpec(data, n).value;
      |m.channels| == n && Uniform(m) &&
      (forall i :: 0 <= i < n ==> m.channels[i] == data) &&
      Shape(m) == Dims(n, |data|)
  {
  }

  /** Empty input succeeds with the same value as `TempMat::new`. */
  lemma FromStrEmptyIsNew(n: nat)
    requires n > 0
    ensures FromStrSpec([], n) == Ok(New(n))
  {
  }

  // ---------------------------------------------------------------------------
  // Shape and Dims
  // ---------------------------------------------------------------------------

  /** `TempMat::shape`: (N, length of channel 0); N must be positive because
      channel 0 is indexed. On a uniform matrix it is every channel's length. */
  function Shape(m: TempMat): (d: Dims)
    requires |m.channels| > 0
    ensures d.channels == |m.channels| && d.length == |m.channels[0]|
    ensures Uniform(m) ==> forall i :: 0 <= i < |m.channels| ==> |m.channels[i]| == d.length
  {
    Dims(|m.channels|, |m.channels[0]|)
  }

  /** `TempMat::new().shape()` is (N, 0). */
  lemma ShapeOfNew(n: nat)
    requires n > 0
    ensures Shape(New(n)) == Dims(n, 0)
  {
  }

  /** `PartialEq::eq` for `Dims`: both components equal, i.e. structural equality. */
  function DimsEq(a: Dims, b: Dims): (r: bool)
    ensures r <==> a == b
  {
    a.channels == b.channels && a.length == b.length
  }

  /** `PartialEq::ne` for `Dims`: it holds only when BOTH components differ,
      so it implies `!eq` but is not its negation: when exactly one component
      differs, neither `eq` nor `ne` holds. */
  function DimsNe(a: Dims, b: Dims): (r: bool)
    ensures r ==> !DimsEq(a, b)
    ensures (!r && !DimsEq(a, b)) <==> ((a.channels == b.channels) != (a.length == b.length))
  {
    a.channels != b.channels && a.length != b.length
  }

  /** The shapes (4, 3) and (4, 5) are neither equal nor unequal. */
  lemma DimsNeIsNotNegation()
    ensures !DimsEq(Dims(4, 3), Dims(4, 5)) && !DimsNe(Dims(4, 3), Dims(4, 5))
  {
  }

  /** `Display` for `Dims`: "(a, b)" with both numbers in decimal. */
  function DimsToString(d: Dims): (s: string)
    ensures |s| == |NatToString(d.channels)| + |NatToString(d.length)| + 4
    ensures s[0] == '(' && s[|s| - 1] == ')'
    ensures s[1..1 + |NatToString(d.channels)|] == NatToString(d.channels)
    ensures s[1 + |NatToString(d.channels)|..3 + |NatToString(d.channels)|] == ", "
    ensures s[|s| - 1 - |NatToString(d.length)|..|s| - 1] == NatToString(d.length)
  {
    "(" + NatToString(d.channels) + ", " + NatToString(d.length) + ")"
  }

  /** The first ',' of the display sits right after the first number. */
  lemma DimsToStringComma(d: Dims)
    ensures var s, c := DimsToString(d), NatToString(d.channels);
      s[1 + |c|] == ',' && forall i :: 1 <= i < 1 + |c| ==> s[i] != ','
  {
  }

  /** Different shapes display differently: the text determines the shape. */
  lemma DimsToStringInjective(a: Dims, b: Dims)
    requires DimsToString(a) == DimsToString(b)
    ensures a == b
  {
    var sa, sb := DimsToString(a), DimsToString(b);
    var ca, cb := NatToString(a.channels), NatToString(b.channels);
    DimsToStringComma(a);
    DimsToStringComma(b);
    assert |ca| == |cb|;
    assert ca == sa[1..1 + |ca|] == sb[1..1 + |cb|] == cb;
    NatToStringInjective(a.channels, b.channels);
    var la, lb := NatToString(a.length), NatToString(b.length);
    assert la == sa[|sa| - 1 - |la|..|sa| - 1] == sb[|sb| - 1 - |lb|..|sb| - 1] == lb;
    NatToStringInjective(a.length, b.length);
  }

  // ---------------------------------------------------------------------------
  // Interpolation
  // ---------------------------------------------------------------------------

  /** `INTERP(n1, n2, dt) = (n2 - n1) / dt`: the slope that carries n1 to n2
      over one step dt. */
  function Slope(n1: real, n2: real, dt: real): (s: real)
    requires dt != 0.0
    ensures n1 + s * dt == n2
  {
    (n2 - n1) / dt
  }

  /** `channel.windows(2).map(|n| INTERP(n[0], n[1], dt))`: one slope per
      adjacent pair, empty when the channel has at most one reading. */
  function SlopeSeries(c: seq<real>, dt: real): (r: seq<real>)
    requires dt != 0.0
    ensures |r| == if |c| <= 1 then 0 else |c| - 1
    ensures forall j :: 0 <= j < |r| ==> r[j] == Slope(c[j], c[j + 1], dt)
    decreases |c|
  {
    if |c| < 2 then [] else [Slope(c[0], c[1], dt)] + SlopeSeries(c[1..], dt)
  }

  /** Readings 1, 3, 7 one step of 2 apart have slopes 1 and 2. */
  lemma SlopeSeriesExample()
    ensures SlopeSeries([1.0, 3.0, 7.0], 2.0) == [1.0, 2.0]
  {
  }

  /** The piecewise-linear series that starts at y0 and follows each slope for
      one step dt: the inverse of `SlopeSeries`. */
  function Integrate(y0: real, slopes: seq<real>, dt: real): (ys: seq<real>)
    ensures |ys| == |slopes| + 1 && ys[0] == y0
    decreases |slopes|
  {
    if slopes == [] then [y0] else [y0] + Integrate(y0 + slopes[0] * dt, slopes[1..], dt)
  }

  /** One step of `Integrate`. */
  lemma IntegrateCons(y0: real, slopes: seq<real>, dt: real)
    requires |slopes| >= 1
    ensures Integrate(y0, slopes, dt) == [y0] + Integrate(y0 + slopes[0] * dt, slopes[1..], dt)
  {
  }

  /** The slopes with the first reading determine the channel. */
  lemma {:induction false} IntegrateSlopeSeries(c: seq<real>, dt: real)
    requires dt != 0.0 && |c| >= 1
    ensures Integrate(c[0], SlopeSeries(c, dt), dt) == c
    decreases |c|
  {
    if |c| >= 2 {
      var s, rest := SlopeSeries(c, dt), SlopeSeries(c[1..], dt);
      assert s == [Slope(c[0], c[1], dt)] + rest;
      assert s[1..] == rest;
      assert c[0] + s[0] * dt == c[1];
      IntegrateCons(c[0], s, dt);
      IntegrateSlopeSeries(c[1..], dt);
      assert Integrate(c[0], s, dt) == [c[0]] + Integrate(c[1], rest, dt);
      assert c == [c[0]] + c[1..];
    }
  }

  /** Every slope series is the slope series of its integration. */
  lemma {:induction false} SlopeSeriesOfIntegrate(y0: real, slopes: seq<real>, dt: real)
    requires dt != 0.0
    ensures SlopeSeries(Integrate(y0, slopes, dt), dt) == slopes
    decreases |slopes|
  {
    if slopes != [] {
      var y1 := y0 + slopes[0] * dt;
      var ys := Integrate(y0, slopes, dt);
      IntegrateCons(y0, slopes, dt);
      assert ys[1..] == Integrate(y1, slopes[1..], dt);
      assert ys[1] == y1;
      assert (y1 - y0) / dt == slopes[0];
      SlopeSeriesOfIntegrate(y1, slopes[1..], dt);
      assert SlopeSeries(ys, dt) == [slopes[0]] + slopes[1..];
      assert slopes == [slopes[0]] + slopes[1..];
    }
  }

  /** The matrix `interp(dt)` returns: channel i is the slope series of channel i. */
  function Interpolated(m: TempMat, dt: real): TempMat
    requires dt != 0.0
  {
    TempMat(seq(|m.channels|, i requires 0 <= i < |m.channels| => SlopeSeries(m.channels[i], dt)))
  }

  /** `TempMat::interp`: fills a fresh array of N channels in a `for` loop,
      channel i from channel i of the receiver; the receiver is a value and
      stays as it was. */
  method Interp(m: TempMat, dt: real) returns (r: TempMat)
    requires dt != 0.0
    ensures |r.channels| == |m.channels|
    ensures forall i :: 0 <= i < |m.channels| ==> r.channels[i] == SlopeSeries(m.channels[i], dt)
    ensures r == Interpolated(m, dt)
  {
    var chans := new seq<real>[|m.channels|](_ => []);
    for i := 0 to |m.channels|
      invariant forall j :: 0 <= j < i ==> chans[j] == SlopeSeries(m.channels[j], dt)
    {
      chans[i] := SlopeSeries(m.channels[i], dt);
    }
    r := TempMat(chans[..]);
  }

  /** `interp` keeps N channels, each of length max(L - 1, 0), with entry j
      the slope from reading j to reading j + 1; it keeps uniformity. */
  lemma InterpolatedShape(m: TempMat, dt: real)
    requires dt != 0.0
    ensures var r := Interpolated(m, dt);
      |r.channels| == |m.channels| &&
      (forall i :: 0 <= i < |m.channels| ==>
        |r.channels[i]| == (if |m.channels[i]| <= 1 then 0 else |m.channels[i]| - 1)) &&
      (forall i, j :: 0 <= i < |m.channels| && 0 <= j < |r.channels[i]| ==>
        r.channels[i][j] == (m.channels[i][j + 1] - m.channels[i][j]) / dt) &&
      (Uniform(m) ==> Uniform(r))
  {
  }

  /** Result channel i depends on input channel i only. */
  lemma InterpolatedChannelLocal(m1: TempMat, m2: TempMat, dt: real, i: nat)
    requires dt != 0.0
    requires i < |m1.channels| && i < |m2.channels| && m1.channels[i] == m2.channels[i]
    ensures Interpolated(m1, dt).channels[i] == Interpolated(m2, dt).channels[i]
  {
  }

  /** The shape of the interpolated matrix of a uniform, non-empty matrix. */
  lemma ShapeOfInterpolated(m: TempMat, dt: real)
    requires dt != 0.0 && |m.channels| > 0 && Uniform(m)
    ensures var L := |m.channels[0]|;
      Shape(Interpolated(m, dt)) == Dims(|m.channels|, if L <= 1 then 0 else L - 1)
  {
    InterpolatedShape(m, dt);
  }

  /** Each original channel is recovered from its first reading and its
      interpolated channel. */
  lemma InterpolatedLosesOnlyStart(m: TempMat, dt: real, i: nat)
    requires dt != 0.0 && i < |m.channels| && |m.channels[i]| >= 1
    ensures Integrate(m.channels[i][0], Interpolated(m, dt).channels[i], dt) == m.channels[i]
  {
    IntegrateSlopeSeries(m.channels[i], dt);
  }

  // ---------------------------------------------------------------------------
  // Output planning
  // ---------------------------------------------------------------------------

  /** The fields of one report line
      "t0 <= x <= t1 ; y = y0 + slope x ; interpolation"; the numeric
      rendering (widths, three decimals) is not modelled. */
  datatype ModLine = ModLine(t0: real, t1: real, y0: real, slope: real)

  /** `create_modline(y0, interp, t0, t1)`: note the argument order differs
      from the order of the fields in the line. */
  function CreateModline(y0: real, interp: real, t0: real, t1: real): (l: ModLine)
    ensures l.t0 == t0 && l.t1 == t1 && l.y0 == y0 && l.slope == interp
  {
    ModLine(t0, t1, y0, interp)
  }

  /** The value reached from y0 by following the line's slope across its
      interval, i.e. for one step of width t1 - t0. */
  function EndValue(l: ModLine): real {
    l.y0 + l.slope * (l.t1 - l.t0)
  }

  /** One output file: its path and the lines written to it, in order. */
  datatype OutputFile = OutputFile(name: string, lines: seq<ModLine>)

  /** `PathBuf::join` of a relative name onto a directory: a separator is
      inserted unless the directory is empty or already ends in one. */
  function DirPrefix(dir: string): (p: string)
    ensures dir == [] ==> p == []
    ensures dir != [] ==> |dir| <= |p| <= |dir| + 1 && p[..|dir|] == dir && p[|p| - 1] == '/'
    ensures dir != [] && dir[|dir| - 1] == '/' ==> p == dir
  {
    if dir == [] then [] else if dir[|dir| - 1] == '/' then dir else dir + "/"
  }

  /** The name part of `get_new_fname`: "<stem>-core-<k>.txt". */
  function CoreFileName(stem: string, coreNum: nat): string {
    stem + "-core-" + NatToString(coreNum) + ".txt"
  }

  /** The core number sits between "<stem>-core-" and ".txt". */
  lemma CoreFileNameDigits(stem: string, coreNum: nat)
    ensures var c := CoreFileName(stem, coreNum);
      |c| == |stem| + |NatToString(coreNum)| + 10 &&
      c[|stem| + 6..|c| - 4] == NatToString(coreNum)
  {
  }

  /** `get_new_fname` with the parent directory and the file stem of the
      input path given: "<stem>-core-<k>.txt" inside that directory. */
  function NewFileName(parent: string, stem: string, coreNum: nat): (p: string)
    ensures |p| == |DirPrefix(parent)| + |stem| + |NatToString(coreNum)| + 10
    ensures p[..|DirPrefix(parent)|] == DirPrefix(parent)
    ensures p[|DirPrefix(parent)|..|DirPrefix(parent)| + |stem|] == stem
    ensures p[|DirPrefix(parent)| + |stem|..|DirPrefix(parent)| + |stem| + 6] == "-core-"
    ensures p[|p| - 4 - |NatToString(coreNum)|..|p| - 4] == NatToString(coreNum)
    ensures p[|p| - 4..] == ".txt"
  {
    DirPrefix(parent) + CoreFileName(stem, coreNum)
  }

  /** Distinct cores never write to the same file. */
  lemma NewFileNamesDistinct(parent: string, stem: string, k1: nat, k2: nat)
    requires k1 != k2
    ensures NewFileName(parent, stem, k1) != NewFileName(parent, stem, k2)
  {
    var p1, p2 := NewFileName(parent, stem, k1), NewFileName(parent, stem, k2);
    var pre := DirPrefix(parent);
    if p1 == p2 {
      var c1, c2 := CoreFileName(stem, k1), CoreFileName(stem, k2);
      assert c1 == p1[|pre|..] == p2[|pre|..] == c2;
      CoreFileNameDigits(stem, k1);
      CoreFileNameDigits(stem, k2);
      NatToStringInjective(k1, k2);
    }
  }

  /** What `write_temp_output` demands before it writes, on pain of a panic:
      equal channel counts, N > 0, the `assert_eq!` that the original is one
      reading longer than the interpolated channel 0, and every channel long
      enough for the indexing `orig[core][i]` and `interp[core][i]`. */
  predicate OutputPreconditions(orig: TempMat, interp: TempMat) {
    && |orig.channels| > 0
    && |interp.channels| == |orig.channels|
    && |orig.channels[0]| == |interp.channels[0]| + 1
    && (forall k :: 0 <= k < |orig.channels| ==> |orig.channels[k]| >= |interp.channels[0]|)
    && (forall k :: 0 <= k < |interp.channels| ==> |interp.channels[k]| >= |interp.channels[0]|)
  }

  /** The lines of the report of core k: one per interpolated index i, with
      t0 = i*dt, t1 = t0 + dt, original reading i and slope i. */
  function PlannedLines(orig: TempMat, interp: TempMat, dt: real, k: nat): (ls: seq<ModLine>)
    requires OutputPreconditions(orig, interp) && k < |orig.channels|
    ensures |ls| == |interp.channels[0]| == |orig.channels[0]| - 1
    ensures forall i :: 0 <= i < |ls| ==> ls[i].t0 == i as real * dt
    ensures forall i :: 0 <= i < |ls| ==> ls[i].t1 == ls[i].t0 + dt
    ensures forall i :: 0 <= i < |ls| ==> ls[i].y0 == orig.channels[k][i]
    ensures forall i :: 0 <= i < |ls| ==> ls[i].slope == interp.channels[k][i]
  {
    seq(|interp.channels[0]|, i requires 0 <= i < |interp.channels[0]| =>
      ModLine(i as real * dt, i as real * dt + dt, orig.channels[k][i], interp.channels[k][i]))
  }

  /** All report files, core by core. */
  function OutputPlan(orig: TempMat, interp: TempMat, dt: real, parent: string, stem: string): seq<OutputFile>
    requires OutputPreconditions(orig, interp)
  {
    seq(|orig.channels|, k requires 0 <= k < |orig.channels| =>
      OutputFile(NewFileName(parent, stem, k), PlannedLines(orig, interp, dt, k)))
  }

  /** The inner loop of `write_temp_output`: the lines for core `coreNum`, in
      increasing i. */
  method CoreLines(orig: TempMat, interp: TempMat, dt: real, coreNum: nat) returns (lines: seq<ModLine>)
    requires OutputPreconditions(orig, interp) && coreNum < |orig.channels|
    ensures |lines| == |interp.channels[0]|
    ensures forall i :: 0 <= i < |lines| ==>
      lines[i].t0 == i as real * dt && lines[i].t1 == lines[i].t0 + dt &&
      lines[i].y0 == orig.channels[coreNum][i] && lines[i].slope == interp.channels[coreNum][i]
    ensures lines == PlannedLines(orig, interp, dt, coreNum)
  {
    lines := [];
    for i := 0 to |interp.channels[0]|
      invariant lines == PlannedLines(orig, interp, dt, coreNum)[..i]
    {
      var t0 := i as real * dt;
      lines := lines + [CreateModline(orig.channels[coreNum][i], interp.channels[coreNum][i], t0, t0 + dt)];
    }
  }

  /** `write_temp_output`, returning the files it would create and the lines
      it would write to them: one file per core, named by `get_new_fname`,
      holding that core's lines. */
  method WriteTempOutput(orig: TempMat, interp: TempMat, dt: real, parent: string, stem: string)
    returns (files: seq<OutputFile>)
    requires OutputPreconditions(orig, interp)
    ensures |files| == |orig.channels|
    ensures forall k :: 0 <= k < |files| ==>
      files[k].name == NewFileName(parent, stem, k) && files[k].lines == PlannedLines(orig, interp, dt, k)
    ensures files == OutputPlan(orig, interp, dt, parent, stem)
  {
    files := [];
    for coreNum := 0 to |orig.channels|
      invariant files == OutputPlan(orig, interp, dt, parent, stem)[..coreNum]
    {
      var name := NewFileName(parent, stem, coreNum);
      var lines := CoreLines(orig, interp, dt, coreNum);
      files := files + [OutputFile(name, lines)];
    }
  }

  /** The report files have pairwise distinct names. */
  lemma OutputNamesDistinct(orig: TempMat, interp: TempMat, dt: real, parent: string, stem: string, k1: nat, k2: nat)
    requires OutputPreconditions(orig, interp)
    requires k1 < |orig.channels| && k2 < |orig.channels| && k1 != k2
    ensures var plan := OutputPlan(orig, interp, dt, parent, stem);
      plan[k1].name != plan[k2].name
  {
    NewFileNamesDistinct(parent, stem, k1, k2);
  }

  /** Each file's lines tile the time axis in increasing order: intervals of
      width dt starting at 0, each ending where the next begins. */
  lemma OutputIntervalsTile(orig: TempMat, interp: TempMat, dt: real, k: nat)
    requires OutputPreconditions(orig, interp) && k < |orig.channels|
    ensures var ls := PlannedLines(orig, interp, dt, k);
      (|ls| > 0 ==> ls[0].t0 == 0.0) &&
      (forall i :: 0 <= i < |ls| ==> ls[i].t1 - ls[i].t0 == dt) &&
      (forall i :: 0 <= i < |ls| - 1 ==> ls[i].t1 == ls[i + 1].t0) &&
      (dt > 0.0 ==> forall i :: 0 <= i < |ls| - 1 ==> ls[i].t0 < ls[i + 1].t0)
  {
  }

  /** When the interpolated matrix is the interpolation of a uniform, non-empty
      original, every file holds L - 1 lines, line i carries original reading
      i as y0, and y0 + slope * dt is original reading i + 1. */
  lemma OutputReconstructsOriginal(orig: TempMat, dt: real, k: nat)
    requires dt != 0.0 && k < |orig.channels| && Uniform(orig) && |orig.channels[0]| >= 1
    ensures OutputPreconditions(orig, Interpolated(orig, dt))
    ensures var ls := PlannedLines(orig, Interpolated(orig, dt), dt, k);
      |ls| == |orig.channels[k]| - 1 &&
      forall i :: 0 <= i < |ls| ==>
        ls[i].y0 == orig.channels[k][i] &&
        EndValue(ls[i]) == orig.channels[k][i + 1]
  {
  }

  // ---------------------------------------------------------------------------
  // The pipeline: from_str, then interp, then write_temp_output
  // ---------------------------------------------------------------------------

  /** For a matrix built by `from_str`, the shape assertion of
      `write_temp_output` on it and its interpolation holds exactly when the
      input had at least one token: an empty input parses, but its report
      step panics. */
  lemma PipelineOutputPreconditions(data: seq<real>, n: nat, dt: real)
    requires n > 0 && dt != 0.0 && |data| % n == 0
    ensures var orig := FromStrSpec(data, n).value;
      OutputPreconditions(orig, Interpolated(orig, dt)) <==> |data| >= 1
  {
  }

  /** The whole run on L >= 1 tokens, L a multiple of N: N report files with
      distinct names, each of L - 1 lines, where line i carries input reading
      i as y0 and y0 + slope * dt is input reading i + 1 (every channel of the
      broadcast is the input). */
  lemma PipelineReports(data: seq<real>, n: nat, dt: real, parent: string, stem: string)
    requires n > 0 && dt != 0.0 && |data| % n == 0 && |data| >= 1
    ensures var orig := FromStrSpec(data, n).value;
      var interp := Interpolated(orig, dt);
      OutputPreconditions(orig, interp) &&
      var plan := OutputPlan(orig, interp, dt, parent, stem);
      |plan| == n &&
      (forall k1, k2 :: 0 <= k1 < k2 < n ==> plan[k1].name != plan[k2].name) &&
      (forall k :: 0 <= k < n ==>
        |plan[k].lines| == |data| - 1 &&
        forall i :: 0 <= i < |data| - 1 ==>
          plan[k].lines[i].y0 == data[i] &&
          EndValue(plan[k].lines[i]) == data[i + 1])
  {
    var orig := FromStrSpec(data, n).value;
    FromStrBroadcast(data, n);
    PipelineOutputPreconditions(data, n, dt);
    var interp := Interpolated(orig, dt);
    var plan := OutputPlan(orig, interp, dt, parent, stem);
    forall k1, k2 | 0 <= k1 < k2 < n
      ensures plan[k1].name != plan[k2].name
    {
      OutputNamesDistinct(orig, interp, dt, parent, stem, k1, k2);
    }
    forall k | 0 <= k < n
      ensures |plan[k].lines| == |data| - 1
      ensures forall i :: 0 <= i < |data| - 1 ==>
        plan[k].lines[i].y0 == data[i] &&
        EndValue(plan[k].lines[i]) == data[i + 1]
    {
      OutputReconstructsOriginal(orig, dt, k);
      assert plan[k].lines == PlannedLines(orig, interp, dt, k);
    }
  }
}
