/** Sierra classes read from JSON, normalised to the broadcast form, and hashed. */
module ClassHash {
  import opened Field
  import opened Lists

  /** A JSON value; `Number` keeps what `as_u64` returns for it. */
  datatype Json =
    | Null
    | Bool(b: bool)
    | Number(asU64: Option<U64>)
    | Str(s: string)
    | Arr(items: seq<Json>)
    | Obj(fields: map<string, Json>)

  datatype EntryPoint = EntryPoint(selector: Felt, functionIdx: U64)

  datatype EntryPoints = EntryPoints(external: seq<EntryPoint>, l1Handler: seq<EntryPoint>, ctors: seq<EntryPoint>)

  datatype SierraClass = SierraClass(program: seq<Felt>, version: string, entryPoints: EntryPoints, abi: string)

  datatype ClassError =
    | NotAnObject | CompressedProgram | MissingProgram | EmptyProgram | UnsupportedVersion
    | BadEntryPoints | MissingAbi | NotAFelt(index: nat) | NotAnIndex(index: nat) | NotAnArray | Serialization

  /** Library code: felts of 2^251 and more, decimal text, and the compiler's ABI formatting. */
  datatype Library = Library(
    wide: nat -> Option<Felt>, feltOfDecimal: string -> Option<Felt>, u64OfDecimal: string -> Option<U64>,
    pythonJson: Json -> Option<string>)

  const VERSION: string := "0.1.0"

  // ---- felts as text ----

  const DIGITS: string := "0123456789abcdef"

  function Hex(n: nat): string {
    if n < 16 then [DIGITS[n]] else Hex(n / 16) + [DIGITS[n % 16]]
  }

  /** `0x` and lower-case digits, no leading zeros. */
  function HexOf(f: Felt): string {
    "0x" + Hex(f)
  }

  function DigitValue(c: char): Option<nat> {
    if '0' <= c <= '9' then Some(c as nat - '0' as nat)
    else if 'a' <= c <= 'f' then Some(c as nat - 'a' as nat + 10)
    else if 'A' <= c <= 'F' then Some(c as nat - 'A' as nat + 10)
    else None
  }

  /** The number some hex digits spell, leading zeros and either case allowed. */
  function HexValue(s: string): Option<nat> {
    if s == [] then Some(0)
    else
      match HexValue(s[..|s| - 1])
      case None => None
      case Some(high) =>
        match DigitValue(s[|s| - 1]) case None => None case Some(low) => Some(16 * high + low)
  }

  function FromHex(lib: Library, digits: string): Option<Felt> {
    if digits == "" then None
    else
      match HexValue(digits)
      case None => None
      case Some(n) => if n < P then Some(n) else lib.wide(n)
  }

  /** A felt from a JSON value: `0x...` hex, decimal text, or an integer. */
  function FeltOf(lib: Library, v: Json): Option<Felt> {
    match v
    case Str(s) =>
      if |s| >= 2 && s[0] == '0' && (s[1] == 'x' || s[1] == 'X') then FromHex(lib, s[2..]) else lib.feltOfDecimal(s)
    case Number(Some(n)) => Some(n)
    case _ => None
  }

  lemma DigitRoundTrip(d: nat)
    requires d < 16
    ensures DigitValue(DIGITS[d]) == Some(d)
  {
  }

  lemma {:induction false} HexRoundTrip(n: nat)
    ensures HexValue(Hex(n)) == Some(n) && Hex(n) != ""
    decreases n
  {
    if n < 16 {
      DigitRoundTrip(n);
      assert [DIGITS[n]][..0] == "";
    } else {
      HexRoundTrip(n / 16);
      DigitRoundTrip(n % 16);
      assert Hex(n)[..|Hex(n)| - 1] == Hex(n / 16);
    }
  }

  lemma FeltRoundTrip(lib: Library, f: Felt)
    ensures FeltOf(lib, Str(HexOf(f))) == Some(f)
  {
    HexRoundTrip(f);
    assert HexOf(f)[2..] == Hex(f);
  }

  // ---- reading ----

  function Get(v: Json, key: string): Option<Json> {
    if v.Obj? && key in v.fields then Some(v.fields[key]) else None
  }

  /** The felts of an array, refused at the first item that is none. */
  function Felts(lib: Library, items: seq<Json>): Result<seq<Felt>, ClassError> {
    if items == [] then Ok([])
    else
      match Felts(lib, items[..|items| - 1])
      case Err(e) => Err(e)
      case Ok(before) =>
        match FeltOf(lib, items[|items| - 1])
        case None => Err(NotAFelt(|items| - 1))
        case Some(f) => Ok(before + [f])
  }

  function IndexOf(lib: Library, v: Option<Json>): Option<U64> {
    match v
    case Some(Number(n)) => n
    case Some(Str(s)) => lib.u64OfDecimal(s)
    case _ => None
  }

  function PointOf(lib: Library, v: Json, i: nat): Result<EntryPoint, ClassError> {
    match Get(v, "selector")
    case None => Err(NotAFelt(i))
    case Some(s) =>
      match FeltOf(lib, s)
      case None => Err(NotAFelt(i))
      case Some(selector) =>
        match IndexOf(lib, Get(v, "function_idx"))
        case None => Err(NotAnIndex(i))
        case Some(idx) => Ok(EntryPoint(selector, idx))
  }

  function Points(lib: Library, items: seq<Json>): Result<seq<EntryPoint>, ClassError> {
    if items == [] then Ok([])
    else
      match Points(lib, items[..|items| - 1])
      case Err(e) => Err(e)
      case Ok(before) =>
        match PointOf(lib, items[|items| - 1], |items| - 1)
        case Err(e) => Err(e)
        case Ok(p) => Ok(before + [p])
  }

  function Group(lib: Library, v: Option<Json>): Result<seq<EntryPoint>, ClassError> {
    match v
    case None => Ok([])
    case Some(Null) => Ok([])
    case Some(Arr(items)) => Points(lib, items)
    case Some(_) => Err(NotAnArray)
  }

  function ProgramOf(lib: Library, v: Option<Json>): Result<seq<Felt>, ClassError> {
    match v
    case Some(Arr(items)) =>
      (match Felts(lib, items)
       case Err(e) => Err(e)
       case Ok(program) => if program == [] then Err(EmptyProgram) else Ok(program))
    case Some(Str(_)) => Err(CompressedProgram)
    case _ => Err(MissingProgram)
  }

  function VersionOf(v: Option<Json>): Result<string, ClassError> {
    match v
    case None => Ok(VERSION)
    case Some(Null) => Ok(VERSION)
    case Some(Str(s)) => if s == VERSION then Ok(s) else Err(UnsupportedVersion)
    case Some(_) => Err(UnsupportedVersion)
  }

  function EntryPointsOf(lib: Library, v: Option<Json>): Result<EntryPoints, ClassError> {
    match v
    case None => Ok(EntryPoints([], [], []))
    case Some(Null) => Ok(EntryPoints([], [], []))
    case Some(Obj(groups)) =>
      (match Group(lib, Get(Obj(groups), "EXTERNAL"))
       case Err(e) => Err(e)
       case Ok(external) =>
         match Group(lib, Get(Obj(groups), "L1_HANDLER"))
         case Err(e) => Err(e)
         case Ok(l1Handler) =>
           match Group(lib, Get(Obj(groups), "CONSTRUCTOR"))
           case Err(e) => Err(e)
           case Ok(ctors) => Ok(EntryPoints(external, l1Handler, ctors)))
    case Some(_) => Err(BadEntryPoints)
  }

  function AbiOf(lib: Library, v: Option<Json>): Result<string, ClassError> {
    match v
    case Some(Str(s)) => Ok(s)
    case Some(Null) => Err(MissingAbi)
    case None => Err(MissingAbi)
    case Some(other) => match lib.pythonJson(other) case None => Err(Serialization) case Some(s) => Ok(s)
  }

  /** The first part that was refused, in this order, or the class they make up. */
  function Build(program: Result<seq<Felt>, ClassError>, version: Result<string, ClassError>,
                 points: Result<EntryPoints, ClassError>, abi: Result<string, ClassError>):
    Result<SierraClass, ClassError>
  {
    match program
    case Err(e) => Err(e)
    case Ok(p) =>
      match version
      case Err(e) => Err(e)
      case Ok(v) =>
        match points
        case Err(e) => Err(e)
        case Ok(eps) =>
          match abi
          case Err(e) => Err(e)
          case Ok(a) => Ok(SierraClass(p, v, eps, a))
  }

  function FromJson(lib: Library, v: Json): Result<SierraClass, ClassError> {
    if !v.Obj? then Err(NotAnObject)
    else
      Build(ProgramOf(lib, Get(v, "sierra_program")), VersionOf(Get(v, "contract_class_version")),
            EntryPointsOf(lib, Get(v, "entry_points_by_type")), AbiOf(lib, Get(v, "abi")))
  }

  // ---- the broadcast form ----

  function FeltJson(f: Felt): Json {
    Str(HexOf(f))
  }

  function PointJson(p: EntryPoint): Json {
    Obj(map["selector" := Str(HexOf(p.selector)), "function_idx" := Number(Some(p.functionIdx))])
  }

  function PointsJson(points: EntryPoints): Json {
    Obj(map["EXTERNAL" := Arr(MapSeq(PointJson, points.external)),
            "L1_HANDLER" := Arr(MapSeq(PointJson, points.l1Handler)),
            "CONSTRUCTOR" := Arr(MapSeq(PointJson, points.ctors))])
  }

  function ToRpcJson(c: SierraClass): Json {
    Obj(map["sierra_program" := Arr(MapSeq(FeltJson, c.program)),
            "contract_class_version" := Str(c.version),
            "entry_points_by_type" := PointsJson(c.entryPoints),
            "abi" := Str(c.abi)])
  }

  lemma FeltsRoundTrip(lib: Library, fs: seq<Felt>)
    ensures Felts(lib, MapSeq(FeltJson, fs)) == Ok(fs)
  {
    forall i | 0 <= i < |fs|
      ensures FeltOf(lib, MapSeq(FeltJson, fs)[i]) == Some(fs[i])
    {
      FeltRoundTrip(lib, fs[i]);
    }
    FeltsAre(lib, MapSeq(FeltJson, fs), fs);
  }

  lemma {:induction false} FeltsAre(lib: Library, items: seq<Json>, fs: seq<Felt>)
    requires |items| == |fs| && forall i :: 0 <= i < |fs| ==> FeltOf(lib, items[i]) == Some(fs[i])
    ensures Felts(lib, items) == Ok(fs)
    decreases |fs|
  {
    if fs != [] {
      var k := |fs| - 1;
      FeltsAre(lib, items[..k], fs[..k]);
      assert fs == fs[..k] + [fs[k]];
    }
  }

  lemma PointRoundTrip(lib: Library, p: EntryPoint, i: nat)
    ensures PointOf(lib, PointJson(p), i) == Ok(p)
  {
    FeltRoundTrip(lib, p.selector);
    assert "selector" != "function_idx";
  }

  lemma PointsRoundTrip(lib: Library, ps: seq<EntryPoint>)
    ensures Points(lib, MapSeq(PointJson, ps)) == Ok(ps)
  {
    forall i | 0 <= i < |ps|
      ensures PointOf(lib, MapSeq(PointJson, ps)[i], i) == Ok(ps[i])
    {
      PointRoundTrip(lib, ps[i], i);
    }
    PointsAre(lib, MapSeq(PointJson, ps), ps);
  }

  lemma {:induction false} PointsAre(lib: Library, items: seq<Json>, ps: seq<EntryPoint>)
    requires |items| == |ps| && forall i :: 0 <= i < |ps| ==> PointOf(lib, items[i], i) == Ok(ps[i])
    ensures Points(lib, items) == Ok(ps)
    decreases |ps|
  {
    if ps != [] {
      var k := |ps| - 1;
      PointsAre(lib, items[..k], ps[..k]);
      assert ps == ps[..k] + [ps[k]];
    }
  }

  lemma PointsJsonHas(points: EntryPoints)
    ensures PointsJson(points).Obj?
    ensures Get(PointsJson(points), "EXTERNAL") == Some(Arr(MapSeq(PointJson, points.external)))
    ensures Get(PointsJson(points), "L1_HANDLER") == Some(Arr(MapSeq(PointJson, points.l1Handler)))
    ensures Get(PointsJson(points), "CONSTRUCTOR") == Some(Arr(MapSeq(PointJson, points.ctors)))
  {
    assert |"EXTERNAL"| == 8 && |"L1_HANDLER"| == 10 && |"CONSTRUCTOR"| == 11;
  }

  lemma RpcJsonHas(c: SierraClass)
    ensures ToRpcJson(c).Obj?
    ensures Get(ToRpcJson(c), "sierra_program") == Some(Arr(MapSeq(FeltJson, c.program)))
    ensures Get(ToRpcJson(c), "contract_class_version") == Some(Str(c.version))
    ensures Get(ToRpcJson(c), "entry_points_by_type") == Some(PointsJson(c.entryPoints))
    ensures Get(ToRpcJson(c), "abi") == Some(Str(c.abi))
  {
    assert |"sierra_program"| == 14 && |"contract_class_version"| == 22;
    assert |"entry_points_by_type"| == 20 && |"abi"| == 3;
  }

  lemma GroupRoundTrip(lib: Library, ps: seq<EntryPoint>)
    ensures Group(lib, Some(Arr(MapSeq(PointJson, ps)))) == Ok(ps)
  {
    PointsRoundTrip(lib, ps);
  }

  lemma EntryPointsRoundTrip(lib: Library, points: EntryPoints)
    ensures EntryPointsOf(lib, Some(PointsJson(points))) == Ok(points)
  {
    PointsJsonHas(points);
    GroupRoundTrip(lib, points.external);
    GroupRoundTrip(lib, points.l1Handler);
    GroupRoundTrip(lib, points.ctors);
  }

  lemma ProgramRoundTrip(lib: Library, program: seq<Felt>)
    ensures ProgramOf(lib, Some(Arr(MapSeq(FeltJson, program))))
         == if program == [] then Err(EmptyProgram) else Ok(program)
  {
    FeltsRoundTrip(lib, program);
  }

  /** A class reads back from its broadcast form exactly when it has a program and the one supported
      version. */
  lemma ReadsBack(lib: Library, c: SierraClass)
    ensures FromJson(lib, ToRpcJson(c)) == Ok(c) <==> c.program != [] && c.version == VERSION
  {
    RpcJsonHas(c);
    PartsReadBack(lib, c, ToRpcJson(c));
  }

  lemma PartsReadBack(lib: Library, c: SierraClass, v: Json)
    requires v.Obj?
    requires Get(v, "sierra_program") == Some(Arr(MapSeq(FeltJson, c.program)))
    requires Get(v, "contract_class_version") == Some(Str(c.version))
    requires Get(v, "entry_points_by_type") == Some(PointsJson(c.entryPoints))
    requires Get(v, "abi") == Some(Str(c.abi))
    ensures FromJson(lib, v) == Ok(c) <==> c.program != [] && c.version == VERSION
  {
    ProgramRoundTrip(lib, c.program);
    EntryPointsRoundTrip(lib, c.entryPoints);
  }

  /** Whatever was accepted, what is broadcast for it re-reads as the very class that was hashed, and
      broadcasting that again changes nothing. */
  lemma NormalisingIsIdempotent(lib: Library, v: Json)
    requires FromJson(lib, v).Ok?
    ensures var c := FromJson(lib, v).value;
            FromJson(lib, ToRpcJson(c)) == Ok(c) && ToRpcJson(FromJson(lib, ToRpcJson(c)).value) == ToRpcJson(c)
  {
    var program, version := ProgramOf(lib, Get(v, "sierra_program")), VersionOf(Get(v, "contract_class_version"));
    BuiltFrom(program, version, EntryPointsOf(lib, Get(v, "entry_points_by_type")), AbiOf(lib, Get(v, "abi")));
    ReadsBack(lib, FromJson(lib, v).value);
  }

  lemma BuiltFrom(program: Result<seq<Felt>, ClassError>, version: Result<string, ClassError>,
                  points: Result<EntryPoints, ClassError>, abi: Result<string, ClassError>)
    requires Build(program, version, points, abi).Ok?
    ensures Ok(Build(program, version, points, abi).value.program) == program
    ensures Ok(Build(program, version, points, abi).value.version) == version
  {
  }

  // ---- the hash ----

  /** Poseidon over felt lists and the ABI's Keccak. */
  datatype Hashers = Hashers(poseidon: seq<Felt> -> Felt, keccak: string -> Felt, prefix: Felt)

  function Flat(points: seq<EntryPoint>): seq<Felt> {
    if points == [] then []
    else Flat(points[..|points| - 1]) + [points[|points| - 1].selector, points[|points| - 1].functionIdx]
  }

  function ClassHashOf(h: Hashers, c: SierraClass): Felt {
    h.poseidon([h.prefix, h.poseidon(Flat(c.entryPoints.external)), h.poseidon(Flat(c.entryPoints.l1Handler)),
                h.poseidon(Flat(c.entryPoints.ctors)), h.keccak(c.abi), h.poseidon(c.program)])
  }

  /** The lists hashed for a class. */
  function Hashed(h: Hashers, c: SierraClass): set<seq<Felt>> {
    {[h.prefix, h.poseidon(Flat(c.entryPoints.external)), h.poseidon(Flat(c.entryPoints.l1Handler)),
      h.poseidon(Flat(c.entryPoints.ctors)), h.keccak(c.abi), h.poseidon(c.program)],
     Flat(c.entryPoints.external), Flat(c.entryPoints.l1Handler), Flat(c.entryPoints.ctors), c.program}
  }

  lemma {:induction false} FlatInjective(a: seq<EntryPoint>, b: seq<EntryPoint>)
    requires Flat(a) == Flat(b)
    ensures a == b
    decreases |a|
  {
    FlatLength(a);
    FlatLength(b);
    if a != [] {
      var k := |a| - 1;
      assert Flat(a)[..2 * k] == Flat(a[..k]) && Flat(b)[..2 * k] == Flat(b[..k]) by {
        FlatLength(a[..k]);
        FlatLength(b[..k]);
      }
      FlatInjective(a[..k], b[..k]);
      assert Flat(a)[2 * k] == a[k].selector && Flat(b)[2 * k] == b[k].selector;
      assert Flat(a)[2 * k + 1] == a[k].functionIdx && Flat(b)[2 * k + 1] == b[k].functionIdx;
      assert a == a[..k] + [a[k]] && b == b[..k] + [b[k]];
    }
  }

  lemma {:induction false} FlatLength(points: seq<EntryPoint>)
    ensures |Flat(points)| == 2 * |points|
    decreases |points|
  {
    if points != [] {
      FlatLength(points[..|points| - 1]);
    }
  }

  /** Where neither hash collides on what the two classes hash, equal class hashes mean equal broadcasts. */
  lemma HashCoversTheClass(h: Hashers, a: SierraClass, b: SierraClass)
    requires forall x, y :: x in Hashed(h, a) && y in Hashed(h, b) && h.poseidon(x) == h.poseidon(y) ==> x == y
    requires h.keccak(a.abi) == h.keccak(b.abi) ==> a.abi == b.abi
    requires a.version == b.version
    requires ClassHashOf(h, a) == ClassHashOf(h, b)
    ensures ToRpcJson(a) == ToRpcJson(b)
  {
    var x := [h.prefix, h.poseidon(Flat(a.entryPoints.external)), h.poseidon(Flat(a.entryPoints.l1Handler)),
              h.poseidon(Flat(a.entryPoints.ctors)), h.keccak(a.abi), h.poseidon(a.program)];
    var y := [h.prefix, h.poseidon(Flat(b.entryPoints.external)), h.poseidon(Flat(b.entryPoints.l1Handler)),
              h.poseidon(Flat(b.entryPoints.ctors)), h.keccak(b.abi), h.poseidon(b.program)];
    assert x in Hashed(h, a) && y in Hashed(h, b);
    assert x == y;
    assert x[1] == y[1] && x[2] == y[2] && x[3] == y[3] && x[4] == y[4] && x[5] == y[5];
    FlatInjective(a.entryPoints.external, b.entryPoints.external);
    FlatInjective(a.entryPoints.l1Handler, b.entryPoints.l1Handler);
    FlatInjective(a.entryPoints.ctors, b.entryPoints.ctors);
  }
}
