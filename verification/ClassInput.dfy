/** Which JSON is accepted as a Sierra class, and as which class. */
module ClassInput {
  import opened Field
  import opened ClassHash

  // ---- the declarative reading ----

  ghost predicate IsProgram(lib: Library, v: Json, program: seq<Felt>) {
    && v.Arr? && |v.items| == |program| > 0
    && forall i :: 0 <= i < |program| ==> FeltOf(lib, v.items[i]) == Some(program[i])
  }

  ghost predicate IsPoint(lib: Library, v: Json, p: EntryPoint) {
    && v.Obj? && "selector" in v.fields && "function_idx" in v.fields
    && FeltOf(lib, v.fields["selector"]) == Some(p.selector)
    && match v.fields["function_idx"]
       case Number(n) => n == Some(p.functionIdx)
       case Str(s) => lib.u64OfDecimal(s) == Some(p.functionIdx)
       case _ => false
  }

  /** A missing or null list has no entries. */
  ghost predicate IsGroup(lib: Library, v: Option<Json>, ps: seq<EntryPoint>) {
    match v
    case None => ps == []
    case Some(Null) => ps == []
    case Some(Arr(items)) => |items| == |ps| && forall i :: 0 <= i < |ps| ==> IsPoint(lib, items[i], ps[i])
    case Some(_) => false
  }

  ghost predicate IsEntryPoints(lib: Library, v: Option<Json>, points: EntryPoints) {
    match v
    case None => points == EntryPoints([], [], [])
    case Some(Null) => points == EntryPoints([], [], [])
    case Some(Obj(groups)) =>
      && IsGroup(lib, if "EXTERNAL" in groups then Some(groups["EXTERNAL"]) else None, points.external)
      && IsGroup(lib, if "L1_HANDLER" in groups then Some(groups["L1_HANDLER"]) else None, points.l1Handler)
      && IsGroup(lib, if "CONSTRUCTOR" in groups then Some(groups["CONSTRUCTOR"]) else None, points.ctors)
    case Some(_) => false
  }

  /** Text as it is, anything else but null in the compiler's formatting. */
  ghost predicate IsAbi(lib: Library, v: Json, abi: string) {
    match v
    case Str(s) => abi == s
    case Null => false
    case other => lib.pythonJson(other) == Some(abi)
  }

  ghost predicate IsClass(lib: Library, v: Json, c: SierraClass) {
    && v.Obj?
    && "sierra_program" in v.fields && IsProgram(lib, v.fields["sierra_program"], c.program)
    && c.version == "0.1.0"
    && ("contract_class_version" in v.fields ==>
          v.fields["contract_class_version"] == Null || v.fields["contract_class_version"] == Str("0.1.0"))
    && IsEntryPoints(lib, if "entry_points_by_type" in v.fields then Some(v.fields["entry_points_by_type"]) else None,
                     c.entryPoints)
    && "abi" in v.fields && IsAbi(lib, v.fields["abi"], c.abi)
  }

  // ---- reading is that ----

  lemma {:induction false} FeltsExactly(lib: Library, items: seq<Json>, fs: seq<Felt>)
    ensures Felts(lib, items) == Ok(fs)
       <==> |items| == |fs| && forall i :: 0 <= i < |fs| ==> FeltOf(lib, items[i]) == Some(fs[i])
    decreases |items|
  {
    if items != [] && fs != [] {
      var k, n := |items| - 1, |fs| - 1;
      FeltsExactly(lib, items[..k], fs[..n]);
      assert fs == fs[..n] + [fs[n]];
      if Felts(lib, items).Ok? {
        var before := Felts(lib, items[..k]).value;
        FeltsExactly(lib, items[..k], before);
        if Felts(lib, items) == Ok(fs) {
          assert before == fs[..n];
        }
      }
    }
  }

  lemma PointExactly(lib: Library, v: Json, i: nat, p: EntryPoint)
    ensures PointOf(lib, v, i) == Ok(p) <==> IsPoint(lib, v, p)
  {
  }

  lemma {:induction false} PointsExactly(lib: Library, items: seq<Json>, ps: seq<EntryPoint>)
    ensures Points(lib, items) == Ok(ps)
       <==> |items| == |ps| && forall i :: 0 <= i < |ps| ==> IsPoint(lib, items[i], ps[i])
    decreases |items|
  {
    if items != [] && ps != [] {
      var k, n := |items| - 1, |ps| - 1;
      PointsExactly(lib, items[..k], ps[..n]);
      PointExactly(lib, items[k], k, ps[n]);
      assert ps == ps[..n] + [ps[n]];
      if Points(lib, items).Ok? {
        var before := Points(lib, items[..k]).value;
        PointsExactly(lib, items[..k], before);
        if Points(lib, items) == Ok(ps) {
          assert before == ps[..n];
        }
      }
    }
  }

  lemma GroupExactly(lib: Library, v: Option<Json>, ps: seq<EntryPoint>)
    ensures Group(lib, v) == Ok(ps) <==> IsGroup(lib, v, ps)
  {
    if v.Some? && v.value.Arr? {
      PointsExactly(lib, v.value.items, ps);
    }
  }

  lemma EntryPointsExactly(lib: Library, v: Option<Json>, points: EntryPoints)
    ensures EntryPointsOf(lib, v) == Ok(points) <==> IsEntryPoints(lib, v, points)
  {
    if v.Some? && v.value.Obj? {
      GroupExactly(lib, Get(v.value, "EXTERNAL"), points.external);
      GroupExactly(lib, Get(v.value, "L1_HANDLER"), points.l1Handler);
      GroupExactly(lib, Get(v.value, "CONSTRUCTOR"), points.ctors);
    }
  }

  lemma ProgramExactly(lib: Library, v: Option<Json>, program: seq<Felt>)
    ensures ProgramOf(lib, v) == Ok(program) <==> v.Some? && IsProgram(lib, v.value, program)
  {
    if v.Some? && v.value.Arr? {
      FeltsExactly(lib, v.value.items, program);
    }
  }

  /** A JSON value is accepted as the class `c` if and only if it spells `c`: every felt of the program, every entry
      point of each kind, the one supported version or none, and an ABI as text or as anything but null. */
  lemma ReadExactly(lib: Library, v: Json, c: SierraClass)
    ensures FromJson(lib, v) == Ok(c) <==> IsClass(lib, v, c)
  {
    if v.Obj? {
      var program, version := ProgramOf(lib, Get(v, "sierra_program")), VersionOf(Get(v, "contract_class_version"));
      var points, abi := EntryPointsOf(lib, Get(v, "entry_points_by_type")), AbiOf(lib, Get(v, "abi"));
      BuiltExactly(program, version, points, abi, c);
      ProgramExactly(lib, Get(v, "sierra_program"), c.program);
      EntryPointsExactly(lib, Get(v, "entry_points_by_type"), c.entryPoints);
    }
  }

  lemma BuiltExactly(program: Result<seq<Felt>, ClassError>, version: Result<string, ClassError>,
                     points: Result<EntryPoints, ClassError>, abi: Result<string, ClassError>, c: SierraClass)
    ensures Build(program, version, points, abi) == Ok(c)
       <==> program == Ok(c.program) && version == Ok(c.version) && points == Ok(c.entryPoints) && abi == Ok(c.abi)
  {
  }

  // ---- what is broadcast ----

  /** The broadcast form has exactly the four fields, the three lists and the two entries per point; the ABI is text;
      and it spells the class it is the form of. */
  lemma BroadcastSpells(lib: Library, c: SierraClass, p: EntryPoint)
    ensures ToRpcJson(c).Obj? && PointsJson(c.entryPoints).Obj? && PointJson(p).Obj?
    ensures ToRpcJson(c).fields.Keys == {"sierra_program", "contract_class_version", "entry_points_by_type", "abi"}
    ensures PointsJson(c.entryPoints).fields.Keys == {"EXTERNAL", "L1_HANDLER", "CONSTRUCTOR"}
    ensures PointJson(p).fields.Keys == {"selector", "function_idx"}
    ensures Get(ToRpcJson(c), "abi") == Some(Str(c.abi))
    ensures c.program != [] && c.version == "0.1.0" ==> IsClass(lib, ToRpcJson(c), c)
  {
    RpcJsonHas(c);
    if c.program != [] && c.version == "0.1.0" {
      ReadsBack(lib, c);
      ReadExactly(lib, ToRpcJson(c), c);
    }
  }

  // ---- what is refused as what ----

  ghost predicate FirstBad(lib: Library, items: seq<Json>, i: nat) {
    i < |items| && FeltOf(lib, items[i]).None? && forall j :: 0 <= j < i ==> FeltOf(lib, items[j]).Some?
  }

  lemma {:induction false} FeltsRefuse(lib: Library, items: seq<Json>, i: nat)
    requires FirstBad(lib, items, i)
    ensures Felts(lib, items) == Err(NotAFelt(i))
    decreases |items|
  {
    var k := |items| - 1;
    if i < k {
      FeltsRefuse(lib, items[..k], i);
    } else {
      FeltsAllRead(lib, items[..k]);
    }
  }

  lemma {:induction false} FeltsAllRead(lib: Library, items: seq<Json>)
    requires forall j :: 0 <= j < |items| ==> FeltOf(lib, items[j]).Some?
    ensures Felts(lib, items).Ok? && |Felts(lib, items).value| == |items|
    decreases |items|
  {
    if items != [] {
      FeltsAllRead(lib, items[..|items| - 1]);
    }
  }

  /** The program is looked at first, and of its items the first that is no felt; then the version; with all else in
      order, a missing ABI. */
  lemma RefusedFirst(lib: Library, v: Json, i: nat)
    ensures !v.Obj? ==> FromJson(lib, v) == Err(NotAnObject)
    ensures v.Obj? && ("sierra_program" in v.fields ==>
                         !v.fields["sierra_program"].Arr? && !v.fields["sierra_program"].Str?) ==>
              FromJson(lib, v) == Err(MissingProgram)
    ensures v.Obj? && "sierra_program" in v.fields && v.fields["sierra_program"].Str? ==>
              FromJson(lib, v) == Err(CompressedProgram)
    ensures v.Obj? && "sierra_program" in v.fields && v.fields["sierra_program"] == Arr([]) ==>
              FromJson(lib, v) == Err(EmptyProgram)
    ensures v.Obj? && "sierra_program" in v.fields && v.fields["sierra_program"].Arr?
            && FirstBad(lib, v.fields["sierra_program"].items, i) ==>
              FromJson(lib, v) == Err(NotAFelt(i))
  {
    if v.Obj? && "sierra_program" in v.fields && v.fields["sierra_program"].Arr?
      && FirstBad(lib, v.fields["sierra_program"].items, i)
    {
      FeltsRefuse(lib, v.fields["sierra_program"].items, i);
    }
  }

  lemma RefusedNext(lib: Library, v: Json, program: seq<Felt>)
    requires v.Obj? && "sierra_program" in v.fields && IsProgram(lib, v.fields["sierra_program"], program)
    ensures "contract_class_version" in v.fields && v.fields["contract_class_version"] != Null
            && v.fields["contract_class_version"] != Str("0.1.0") ==>
              FromJson(lib, v) == Err(UnsupportedVersion)
    ensures "contract_class_version" !in v.fields && "entry_points_by_type" !in v.fields
            && ("abi" !in v.fields || v.fields["abi"] == Null) ==>
              FromJson(lib, v) == Err(MissingAbi)
  {
    ProgramExactly(lib, Get(v, "sierra_program"), program);
  }

  // ---- hex text ----

  function Lower(c: char): char {
    if 'A' <= c <= 'F' then (c as int - 'A' as int + 'a' as int) as char else c
  }

  predicate IsHex(c: char) {
    '0' <= c <= '9' || 'a' <= c <= 'f' || 'A' <= c <= 'F'
  }

  lemma {:induction false} HexIgnoresCase(s: string, t: string)
    requires |s| == |t| && forall i :: 0 <= i < |s| ==> t[i] == Lower(s[i])
    ensures HexValue(t) == HexValue(s)
    decreases |s|
  {
    if s != "" {
      HexIgnoresCase(s[..|s| - 1], t[..|t| - 1]);
    }
  }

  lemma {:induction false} HexIgnoresLeadingZeros(s: string)
    ensures HexValue("0" + s) == HexValue(s)
    decreases |s|
  {
    if s == "" {
      assert "0" + s == "0" && "0"[..0] == "";
    } else {
      var k := |s| - 1;
      HexIgnoresLeadingZeros(s[..k]);
      assert ("0" + s)[..k + 1] == "0" + s[..k];
    }
  }

  lemma {:induction false} HexExactly(s: string)
    ensures HexValue(s).Some? <==> forall i :: 0 <= i < |s| ==> IsHex(s[i])
    decreases |s|
  {
    if s != "" {
      HexExactly(s[..|s| - 1]);
    }
  }

  lemma FeltFromHex(lib: Library, f: Felt, digits: string, x: char)
    requires (x == 'x' || x == 'X') && digits != "" && HexValue(digits) == Some(f)
    ensures FeltOf(lib, Str(['0', x] + digits)) == Some(f)
  {
    assert (['0', x] + digits)[2..] == digits;
  }

  /** Whatever its case and its leading zeros, hex text is read as the felt whose digits it has. */
  lemma FeltSpelled(lib: Library, f: Felt, s: string, x: char)
    requires x == 'x' || x == 'X'
    requires |s| == |Hex(f)| && forall i :: 0 <= i < |s| ==> Lower(s[i]) == Hex(f)[i]
    ensures FeltOf(lib, Str(['0', x] + s)) == Some(f) && FeltOf(lib, Str(['0', x] + ("0" + s))) == Some(f)
  {
    HexRoundTrip(f);
    HexIgnoresCase(s, Hex(f));
    HexIgnoresLeadingZeros(s);
    FeltFromHex(lib, f, s, x);
    FeltFromHex(lib, f, "0" + s, x);
  }

  // ---- the hash ----

  /** Selector and index of each entry point in turn. */
  predicate InPairs(points: seq<EntryPoint>, fs: seq<Felt>) {
    && |fs| == 2 * |points|
    && forall i :: 0 <= i < |points| ==> fs[2 * i] == points[i].selector && fs[2 * i + 1] == points[i].functionIdx
  }

  lemma {:induction false} FlatInPairs(points: seq<EntryPoint>)
    ensures InPairs(points, Flat(points))
    decreases |points|
  {
    if points != [] {
      var k := |points| - 1;
      FlatInPairs(points[..k]);
      forall i | 0 <= i < k
        ensures Flat(points)[2 * i] == points[i].selector && Flat(points)[2 * i + 1] == points[i].functionIdx
      {
        assert Flat(points)[2 * i] == Flat(points[..k])[2 * i] && points[..k][i] == points[i];
        assert Flat(points)[2 * i + 1] == Flat(points[..k])[2 * i + 1];
      }
    }
  }

  lemma PairsAreFlat(points: seq<EntryPoint>, fs: seq<Felt>)
    requires InPairs(points, fs)
    ensures fs == Flat(points)
  {
    FlatInPairs(points);
    forall j | 0 <= j < |fs|
      ensures fs[j] == Flat(points)[j]
    {
      assert fs[2 * (j / 2)] == Flat(points)[2 * (j / 2)] && fs[2 * (j / 2) + 1] == Flat(points)[2 * (j / 2) + 1];
    }
  }

  /** What is hashed, in this order: the prefix, the three lists of entry points in pairs, the ABI, the program. */
  lemma HashIs(h: Hashers, c: SierraClass, external: seq<Felt>, l1Handler: seq<Felt>, ctors: seq<Felt>)
    requires InPairs(c.entryPoints.external, external) && InPairs(c.entryPoints.l1Handler, l1Handler)
    requires InPairs(c.entryPoints.ctors, ctors)
    ensures ClassHashOf(h, c)
         == h.poseidon([h.prefix, h.poseidon(external), h.poseidon(l1Handler), h.poseidon(ctors), h.keccak(c.abi),
                        h.poseidon(c.program)])
  {
    PairsAreFlat(c.entryPoints.external, external);
    PairsAreFlat(c.entryPoints.l1Handler, l1Handler);
    PairsAreFlat(c.entryPoints.ctors, ctors);
  }
}
