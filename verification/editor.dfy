/**
 * The voxel editor of T1/modeling/index.js: a cursor moved by key codes
 * inside a 10 x 10 x 10 box, a current voxel type cycled through the
 * palette of T1/modeling/voxelTypes.js, and the list of placed voxels,
 * appended to by `addVoxel` and shortened by `removeVoxel`. Scene objects
 * are reduced to their position, kind and type name.
 */
module Editor {
  import opened Voxels

  const SizeX := 10
  const SizeY := 10
  const SizeZ := 10

  /** `SIZE_X / 2` and `SIZE_Z / 2`: the cursor's x and z stay within plus or minus these. */
  const HalfX: real := 5.0
  const HalfZ: real := 5.0

  /** A `THREE.Vector3` position. */
  datatype Vec = Vec(x: real, y: real, z: real)

  /** The cursor position the editor starts with. */
  const Start := Vec(0.5, 0.5, 0.5)

  /**
   * An entry of `voxelTypes`. `complex` says whether the entry has a
   * `create` function, which would make `addVoxel` build a tree group.
   */
  datatype VoxelType = VoxelType(name: string, color: string, complex: bool)

  /** `voxelTypes`: five plain box types; none has a `create` function. */
  const Palette: seq<VoxelType> := [
    VoxelType("wood", "#966F33", false),
    VoxelType("forestgreen", "forestgreen", false),
    VoxelType("darkgreen", "darkgreen", false),
    VoxelType("orange", "darkorange", false),
    VoxelType("oak", "#D8B589", false)]

  /** The `userData.type` an entry's voxels get. */
  function KindOf(t: VoxelType): (kind: string)
    ensures kind == "tree" <==> t.complex
    ensures kind == "block" <==> !t.complex
  {
    if t.complex then "tree" else "block"
  }

  /** The palette has five entries, and every one places plain blocks. */
  lemma PaletteShape()
    ensures |Palette| == 5
    ensures forall i :: 0 <= i < |Palette| ==> KindOf(Palette[i]) == "block"
  {
  }

  /** The `event.code` values the keydown handler's `switch` has a case for. */
  datatype Code = ArrowUp | ArrowDown | ArrowLeft | ArrowRight | Equal | Minus | Numpad9 | Numpad3
                | KeyQ | KeyE | Period | Comma | KeyS | KeyL | Unhandled

  const Codes: map<string, Code> := map[
    "ArrowUp" := ArrowUp, "ArrowDown" := ArrowDown, "ArrowLeft" := ArrowLeft, "ArrowRight" := ArrowRight,
    "Equal" := Equal, "Minus" := Minus, "Numpad9" := Numpad9, "Numpad3" := Numpad3,
    "KeyQ" := KeyQ, "KeyE" := KeyE, "Period" := Period, "Comma" := Comma, "KeyS" := KeyS, "KeyL" := KeyL]

  /** The case of the `switch` an event code selects; `Unhandled` when none matches. */
  function CodeOf(code: string): (c: Code)
    ensures c == Unhandled <==> code !in Codes
  {
    if code in Codes then Codes[code] else Unhandled
  }

  /** The box the cursor lives in. */
  predicate InBox(p: Vec) {
    -HalfX <= p.x <= HalfX && -HalfZ <= p.z <= HalfZ && 0.0 <= p.y <= SizeY as real
  }

  /** The cursor after a key: one unit along one axis, unless that would leave the box. */
  function Moved(p: Vec, c: Code): Vec {
    match c
    case ArrowUp => if p.z - 1.0 >= -HalfZ then p.(z := p.z - 1.0) else p
    case ArrowDown => if p.z + 1.0 <= HalfZ then p.(z := p.z + 1.0) else p
    case ArrowLeft => if p.x - 1.0 >= -HalfX then p.(x := p.x - 1.0) else p
    case ArrowRight => if p.x + 1.0 <= HalfX then p.(x := p.x + 1.0) else p
    case Equal => if p.y + 1.0 <= SizeY as real then p.(y := p.y + 1.0) else p
    case Numpad9 => if p.y + 1.0 <= SizeY as real then p.(y := p.y + 1.0) else p
    case Minus => if p.y - 1.0 >= 0.0 then p.(y := p.y - 1.0) else p
    case Numpad3 => if p.y - 1.0 >= 0.0 then p.(y := p.y - 1.0) else p
    case _ => p
  }

  /** The key that undoes a cursor key. */
  function Opposite(c: Code): Code {
    match c
    case ArrowUp => ArrowDown
    case ArrowDown => ArrowUp
    case ArrowLeft => ArrowRight
    case ArrowRight => ArrowLeft
    case Equal => Minus
    case Numpad9 => Numpad3
    case Minus => Equal
    case Numpad3 => Numpad9
    case _ => c
  }

  /** The cursor starts inside the box and no key takes it out. */
  lemma CursorStaysInBox(p: Vec, c: Code)
    ensures InBox(Start)
    ensures InBox(p) ==> InBox(Moved(p, c))
  {
  }

  /**
   * A cursor key moves exactly one unit along its axis or, at the edge of
   * the box, not at all; and once it has moved, the opposite key brings the
   * cursor back.
   */
  lemma CursorStep(p: Vec, c: Code)
    requires InBox(p)
    ensures var q := Moved(p, c);
      q == p || (q.x - p.x) * (q.x - p.x) + (q.y - p.y) * (q.y - p.y) + (q.z - p.z) * (q.z - p.z) == 1.0
    ensures Moved(p, c) != p ==> Moved(Moved(p, c), Opposite(c)) == p
  {
  }

  /**
   * `%` of JavaScript on integers: the remainder takes the sign of the
   * dividend, so it agrees with the Euclidean remainder for a non-negative
   * dividend and is that remainder shifted down by `n` (or 0) otherwise.
   * Either way it differs from `a` by a multiple of `n`.
   */
  function JsRem(a: int, n: int): (r: int)
    requires n > 0
    ensures a >= 0 ==> 0 <= r < n && r == a % n
    ensures a < 0 ==> -n < r <= 0 && r == (if a % n == 0 then 0 else a % n - n)
  {
    if a >= 0 then a % n else NegativeRem(a, n); -((-a) % n)
  }

  /** The Euclidean remainder is the only one in [0, n). */
  lemma RemUnique(a: int, n: int, m: int, r: int)
    requires n > 0 && 0 <= r < n && a == n * m + r
    ensures a % n == r
  {
    var d := m - a / n;
    assert n * d == n * m - n * (a / n);
    MulMagnitude(n, d);
  }

  /** A non-zero multiple of `n` is at least `n` away from 0. */
  lemma MulMagnitude(n: int, d: int)
    requires n > 0
    ensures d != 0 ==> n * d >= n || n * d <= -n
  {
    if d > 0 {
      var e := d - 1;
      assert n * d == n * e + n;
      assert n * e >= 0;
    } else if d < 0 {
      var e := -d - 1;
      assert n * d == -(n * e) - n;
      assert n * e >= 0;
    }
  }

  /** The Euclidean remainder of a negative `a` against that of `-a`. */
  lemma NegativeRem(a: int, n: int)
    requires n > 0 && a < 0
    ensures (-a) % n == 0 ==> a % n == 0
    ensures (-a) % n != 0 ==> a % n == n - (-a) % n
  {
    var k, q := (-a) / n, (-a) % n;
    assert -a == n * k + q;
    if q == 0 {
      assert a == n * -k;
      RemUnique(a, n, -k, 0);
    } else {
      assert a == n * (-k - 1) + (n - q);
      RemUnique(a, n, -k - 1, n - q);
    }
  }

  /** The current voxel type after a key: "." steps forward and "," back through the palette, wrapping. */
  function Cycled(t: int, c: Code): int {
    match c
    case Period => JsRem(t + 1, |Palette|)
    case Comma => JsRem(t - 1 + |Palette|, |Palette|)
    case _ => t
  }

  /**
   * Cycling keeps the type a valid palette index, "." moves to the next
   * entry and wraps from the last to the first, and "," undoes "." (and
   * the other way round).
   */
  lemma PaletteCycle(t: int)
    requires 0 <= t < |Palette|
    ensures 0 <= Cycled(t, Period) < |Palette| && 0 <= Cycled(t, Comma) < |Palette|
    ensures Cycled(t, Period) == if t == |Palette| - 1 then 0 else t + 1
    ensures Cycled(t, Comma) == if t == 0 then |Palette| - 1 else t - 1
    ensures Cycled(Cycled(t, Period), Comma) == t && Cycled(Cycled(t, Comma), Period) == t
  {
  }

  /** Codes without a case leave the cursor and the type where they are. */
  lemma UnhandledCodes(p: Vec, t: int, code: string)
    requires code !in Codes
    ensures Moved(p, CodeOf(code)) == p && Cycled(t, CodeOf(code)) == t
  {
  }

  /** A placed voxel: the scene object `addVoxel` creates, with its `userData`. */
  class VoxelObject {
    const position: Vec
    const kind: string
    const name: string

    constructor (position: Vec, kind: string, name: string)
      ensures this.position == position && this.kind == kind && this.name == name
    {
      this.position := position;
      this.kind := kind;
      this.name := name;
    }
  }

  /** How many listed voxels sit at `p`. */
  function CountAt(vs: seq<VoxelObject>, p: Vec): nat {
    if |vs| == 0 then 0 else (if vs[0].position == p then 1 else 0) + CountAt(vs[1..], p)
  }

  /** `voxels.find`: the index of the first voxel at `p`, if there is one. */
  function FirstAt(vs: seq<VoxelObject>, p: Vec): (r: Option<nat>)
    ensures r.Some? ==>
      r.value < |vs| && vs[r.value].position == p && forall j :: 0 <= j < r.value ==> vs[j].position != p
    ensures r.None? <==> CountAt(vs, p) == 0
  {
    if |vs| == 0 then None
    else if vs[0].position == p then Some(0)
    else match FirstAt(vs[1..], p)
      case None => None
      case Some(i) => Some(i + 1)
  }

  /** `voxels.filter((v) => v !== voxel)`: every entry but `o`, in order. */
  function Without(vs: seq<VoxelObject>, o: VoxelObject): (r: seq<VoxelObject>)
    ensures o !in r
    ensures forall v :: v in vs && v != o ==> v in r
    ensures forall v :: v in r ==> v in vs
  {
    if |vs| == 0 then []
    else (if vs[0] == o then [] else [vs[0]]) + Without(vs[1..], o)
  }

  /** Dropping one slot of a list without repeats leaves a list without repeats. */
  lemma DistinctRemove(vs: seq<VoxelObject>, i: nat)
    requires Distinct(vs) && i < |vs|
    ensures Distinct(vs[..i] + vs[i + 1..])
  {
    var r := vs[..i] + vs[i + 1..];
    forall a, b | 0 <= a < b < |r|
      ensures r[a] != r[b]
    {
      var a', b' := if a < i then a else a + 1, if b < i then b else b + 1;
      assert r[a] == vs[a'] && r[b] == vs[b'];
    }
  }

  /** In a list without repeats, filtering out the entry at `i` removes exactly that one slot. */
  lemma WithoutDistinct(vs: seq<VoxelObject>, i: nat)
    requires Distinct(vs) && i < |vs|
    ensures Without(vs, vs[i]) == vs[..i] + vs[i + 1..]
    ensures Distinct(vs[..i] + vs[i + 1..])
  {
    DistinctRemove(vs, i);
    assert vs[i] !in vs[..i] && vs[i] !in vs[i + 1..] by {
      forall j | 0 <= j < |vs| && j != i
        ensures vs[j] != vs[i]
      {
      }
    }
    WithoutOnly(vs, i);
  }

  /** Filtering out an entry that occurs only at slot `i` removes exactly that slot. */
  lemma {:induction false} WithoutOnly(vs: seq<VoxelObject>, i: nat)
    requires i < |vs| && vs[i] !in vs[..i] && vs[i] !in vs[i + 1..]
    ensures Without(vs, vs[i]) == vs[..i] + vs[i + 1..]
  {
    var o, rest := vs[i], vs[1..];
    if i == 0 {
      assert vs[i + 1..] == rest;
      WithoutAbsent(rest, o);
    } else {
      assert vs[0] != o by {
        assert vs[0] == vs[..i][0];
      }
      assert rest[i - 1] == o && rest[..i - 1] == vs[1..i] && rest[i - 1 + 1..] == vs[i + 1..];
      assert o !in rest[..i - 1] by {
        assert forall v :: v in vs[1..i] ==> v in vs[..i];
      }
      WithoutOnly(rest, i - 1);
      WithoutCons(vs, o);
      DropShift(vs, i);
    }
  }

  /** Dropping slot `i` of a list keeps its head and drops slot `i - 1` of its tail. */
  lemma DropShift(vs: seq<VoxelObject>, i: nat)
    requires 0 < i < |vs|
    ensures vs[..i] + vs[i + 1..] == [vs[0]] + (vs[1..][..i - 1] + vs[1..][i - 1 + 1..])
  {
    assert vs[1..][..i - 1] == vs[1..i];
    assert vs[1..][i - 1 + 1..] == vs[i + 1..];
    assert vs[..i] == [vs[0]] + vs[1..i];
  }

  /** One step of the filter. */
  lemma WithoutCons(vs: seq<VoxelObject>, o: VoxelObject)
    requires |vs| > 0 && vs[0] != o
    ensures Without(vs, o) == [vs[0]] + Without(vs[1..], o)
  {
  }

  /** Filtering out an entry that is not listed changes nothing. */
  lemma {:induction false} WithoutAbsent(vs: seq<VoxelObject>, o: VoxelObject)
    requires o !in vs
    ensures Without(vs, o) == vs
  {
    if |vs| > 0 {
      WithoutAbsent(vs[1..], o);
    }
  }

  /** Appending a voxel counts it at its position and nowhere else. */
  lemma {:induction false} CountAtAppend(vs: seq<VoxelObject>, v: VoxelObject, p: Vec)
    ensures CountAt(vs + [v], p) == CountAt(vs, p) + (if v.position == p then 1 else 0)
  {
    if |vs| > 0 {
      assert (vs + [v])[1..] == vs[1..] + [v];
      CountAtAppend(vs[1..], v, p);
    }
  }

  /** Dropping the slot `i` of a voxel at `p` lowers the count at `p` by one. */
  lemma {:induction false} CountAtRemove(vs: seq<VoxelObject>, i: nat, p: Vec)
    requires i < |vs| && vs[i].position == p
    ensures CountAt(vs[..i] + vs[i + 1..], p) == CountAt(vs, p) - 1
  {
    if i > 0 {
      CountAtRemove(vs[1..], i - 1, p);
      assert vs[1..][..i - 1] == vs[1..i];
      assert vs[1..][i - 1 + 1..] == vs[i + 1..];
      assert (vs[..i] + vs[i + 1..])[1..] == vs[1..i] + vs[i + 1..];
    } else {
      assert vs[..0] + vs[1..] == vs[1..];
    }
  }

  /** The module-level state of the editor: cursor, current type and the placed voxels. */
  class Editor {
    var position: Vec
    var currentVoxelType: int
    var voxels: seq<VoxelObject>

    /** The cursor is in the box, the type indexes the palette and no voxel is listed twice. */
    ghost predicate Valid()
      reads this
    {
      InBox(position) && 0 <= currentVoxelType < |Palette| && Distinct(voxels)
    }

    constructor ()
      ensures Valid()
      ensures position == Start && currentVoxelType == 0 && voxels == []
    {
      position := Start;
      currentVoxelType := 0;
      voxels := [];
    }

    /**
     * `addVoxel`: a new voxel of the current type at the cursor goes to the
     * end of the list; an existing voxel there is not looked for, so the
     * count at the cursor always grows by one.
     */
    method AddVoxel()
      requires Valid()
      modifies this
      ensures Valid()
      ensures position == old(position) && currentVoxelType == old(currentVoxelType)
      ensures |voxels| == |old(voxels)| + 1 && voxels[..|old(voxels)|] == old(voxels)
      ensures fresh(voxels[|old(voxels)|])
      ensures voxels[|old(voxels)|].position == position
      ensures voxels[|old(voxels)|].name == Palette[currentVoxelType].name
      ensures voxels[|old(voxels)|].kind == KindOf(Palette[currentVoxelType])
      ensures CountAt(voxels, position) == CountAt(old(voxels), position) + 1
    {
      var entry := Palette[currentVoxelType];
      var voxel;
      if entry.complex {
        voxel := new VoxelObject(position, "tree", entry.name);
      } else {
        voxel := new VoxelObject(position, "block", entry.name);
      }
      CountAtAppend(voxels, voxel, position);
      voxels := voxels + [voxel];
      assert voxels[..|old(voxels)|] == old(voxels);
    }

    /**
     * `removeVoxel`: the first voxel at the cursor, if any, leaves the
     * list, and only that one; without a voxel at the cursor nothing
     * changes.
     */
    method RemoveVoxel()
      requires Valid()
      modifies this
      ensures Valid()
      ensures position == old(position) && currentVoxelType == old(currentVoxelType)
      ensures match FirstAt(old(voxels), position)
        case None => voxels == old(voxels)
        case Some(i) => voxels == old(voxels)[..i] + old(voxels)[i + 1..]
      ensures CountAt(voxels, position) == if CountAt(old(voxels), position) == 0 then 0
                                          else CountAt(old(voxels), position) - 1
    {
      var found := FirstAt(voxels, position);
      if found.Some? {
        var voxel := voxels[found.value];
        WithoutDistinct(voxels, found.value);
        CountAtRemove(voxels, found.value, position);
        voxels := Without(voxels, voxel);
      }
    }

    /**
     * The keydown handler: cursor keys move within the box, "+"/"-" and
     * the numpad keys move vertically, Q adds, E removes, "." and ","
     * cycle the type. Saving and loading are file I/O and change none of
     * this state, and any other code is ignored.
     */
    method OnKeyDown(code: string)
      requires Valid()
      modifies this
      ensures Valid()
      ensures position == Moved(old(position), CodeOf(code))
      ensures currentVoxelType == Cycled(old(currentVoxelType), CodeOf(code))
      ensures CodeOf(code) != KeyQ && CodeOf(code) != KeyE ==> voxels == old(voxels)
      ensures CodeOf(code) == KeyQ ==>
        && |voxels| == |old(voxels)| + 1 && voxels[..|old(voxels)|] == old(voxels)
        && fresh(voxels[|old(voxels)|])
        && voxels[|old(voxels)|].position == position
        && voxels[|old(voxels)|].name == Palette[currentVoxelType].name
        && voxels[|old(voxels)|].kind == KindOf(Palette[currentVoxelType])
        && CountAt(voxels, position) == CountAt(old(voxels), position) + 1
      ensures CodeOf(code) == KeyE ==> match FirstAt(old(voxels), position)
        case None => voxels == old(voxels)
        case Some(i) => voxels == old(voxels)[..i] + old(voxels)[i + 1..]
      ensures CodeOf(code) == KeyE ==>
        CountAt(voxels, position) == if CountAt(old(voxels), position) == 0 then 0
                                     else CountAt(old(voxels), position) - 1
    {
      var n := |Palette|;
      match CodeOf(code)
      case ArrowUp =>
        if position.z - 1.0 >= -HalfZ { position := position.(z := position.z - 1.0); }
      case ArrowDown =>
        if position.z + 1.0 <= HalfZ { position := position.(z := position.z + 1.0); }
      case ArrowLeft =>
        if position.x - 1.0 >= -HalfX { position := position.(x := position.x - 1.0); }
      case ArrowRight =>
        if position.x + 1.0 <= HalfX { position := position.(x := position.x + 1.0); }
      case Equal =>
        if position.y + 1.0 <= SizeY as real { position := position.(y := position.y + 1.0); }
      case Minus =>
        if position.y - 1.0 >= 0.0 { position := position.(y := position.y - 1.0); }
      case Numpad9 =>
        if position.y + 1.0 <= SizeY as real { position := position.(y := position.y + 1.0); }
      case Numpad3 =>
        if position.y - 1.0 >= 0.0 { position := position.(y := position.y - 1.0); }
      case KeyQ =>
        AddVoxel();
      case KeyE =>
        RemoveVoxel();
      case Period =>
        currentVoxelType := JsRem(currentVoxelType + 1, n);
      case Comma =>
        currentVoxelType := JsRem(currentVoxelType - 1 + n, n);
      case KeyS =>
      case KeyL =>
      case Unhandled =>
    }
  }
}
