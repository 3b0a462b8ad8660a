/**
 * The parameter record of a particle system and the two ways the source changes it:
 * `updateParams(key, value)` assigns one key (src/ParticleSystem.js:130) and
 * `regenerate(newParams)` merges a partial record with object spread
 * (src/ParticleSystem.js:125).
 */
module Config {
  import opened Wrappers

  /** The `params` record (src/ParticleSystem.js:11-18). `color` is the CSS colour text. */
  datatype Params = Params(count: nat, size: real, color: string, speed: real, radius: real, randomness: real)

  /** The record a new particle system starts with; its `count` is the constructor argument. */
  function Defaults(count: nat): Params {
    Params(count, 0.5, "#00ffff", 1.0, 10.0, 0.5)
  }

  /** The six keys of the record. */
  datatype Key = Count | Size | Color | Speed | Radius | Randomness

  /** A value stored under a key, as the record holds it. */
  datatype Value = Whole(n: nat) | Num(x: real) | Text(s: string)

  /** The record read as the key/value object it is in the source. */
  function Field(p: Params, k: Key): Value {
    match k
    case Count => Whole(p.count)
    case Size => Num(p.size)
    case Color => Text(p.color)
    case Speed => Num(p.speed)
    case Radius => Num(p.radius)
    case Randomness => Num(p.randomness)
  }

  /** The key/value view is faithful: two records that agree on every key are equal. */
  lemma FieldsDetermine(p: Params, q: Params)
    requires forall k :: Field(p, k) == Field(q, k)
    ensures p == q
  {
    assert Field(p, Count) == Field(q, Count);
    assert Field(p, Size) == Field(q, Size);
    assert Field(p, Color) == Field(q, Color);
    assert Field(p, Speed) == Field(q, Speed);
    assert Field(p, Radius) == Field(q, Radius);
    assert Field(p, Randomness) == Field(q, Randomness);
  }

  /** One `updateParams(key, value)` call: a key together with a value of that key's type. */
  datatype Setting =
    | SetCount(count: nat)
    | SetSize(size: real)
    | SetColor(color: string)
    | SetSpeed(speed: real)
    | SetRadius(radius: real)
    | SetRandomness(randomness: real)
  {
    function KeyOf(): Key {
      match this
      case SetCount(_) => Count
      case SetSize(_) => Size
      case SetColor(_) => Color
      case SetSpeed(_) => Speed
      case SetRadius(_) => Radius
      case SetRandomness(_) => Randomness
    }

    function ValueOf(): Value {
      match this
      case SetCount(n) => Whole(n)
      case SetSize(x) => Num(x)
      case SetColor(c) => Text(c)
      case SetSpeed(x) => Num(x)
      case SetRadius(x) => Num(x)
      case SetRandomness(x) => Num(x)
    }
  }

  /** `this.params[key] = value`: the key takes the value, every other key keeps its own. */
  function Assign(p: Params, s: Setting): (q: Params)
    ensures forall k :: Field(q, k) == if k == s.KeyOf() then s.ValueOf() else Field(p, k)
  {
    match s
    case SetCount(n) => p.(count := n)
    case SetSize(x) => p.(size := x)
    case SetColor(c) => p.(color := c)
    case SetSpeed(x) => p.(speed := x)
    case SetRadius(x) => p.(radius := x)
    case SetRandomness(x) => p.(randomness := x)
  }

  /** Assigning the same setting twice is the same as assigning it once. */
  lemma AssignIdempotent(p: Params, s: Setting)
    ensures Assign(Assign(p, s), s) == Assign(p, s)
  {
    FieldsDetermine(Assign(Assign(p, s), s), Assign(p, s));
  }

  /** The argument of `regenerate`: a partial record, in which an absent key is `None`. */
  datatype Patch = Patch(
    count: Option<nat>, size: Option<real>, color: Option<string>,
    speed: Option<real>, radius: Option<real>, randomness: Option<real>)

  /** The patch with no keys, `{}`. */
  const EmptyPatch: Patch := Patch(None, None, None, None, None, None)

  /** The value a patch holds under a key, if it has that key. */
  function PatchField(patch: Patch, k: Key): Option<Value> {
    match k
    case Count => if patch.count.Some? then Some(Whole(patch.count.value)) else None
    case Size => if patch.size.Some? then Some(Num(patch.size.value)) else None
    case Color => if patch.color.Some? then Some(Text(patch.color.value)) else None
    case Speed => if patch.speed.Some? then Some(Num(patch.speed.value)) else None
    case Radius => if patch.radius.Some? then Some(Num(patch.radius.value)) else None
    case Randomness => if patch.randomness.Some? then Some(Num(patch.randomness.value)) else None
  }

  function Pick<T>(o: Option<T>, keep: T): T {
    if o.Some? then o.value else keep
  }

  /**
   * `{ ...p, ...patch }`: every key the patch has takes the patch's value, every other key keeps
   * the old one.
   */
  function Merge(p: Params, patch: Patch): (q: Params)
    ensures forall k :: Field(q, k) == if PatchField(patch, k).Some? then PatchField(patch, k).value else Field(p, k)
  {
    Params(
      Pick(patch.count, p.count), Pick(patch.size, p.size), Pick(patch.color, p.color),
      Pick(patch.speed, p.speed), Pick(patch.radius, p.radius), Pick(patch.randomness, p.randomness))
  }

  /** The one-key patch `{ [key]: value }` of a setting. */
  function PatchOf(s: Setting): (patch: Patch)
    ensures forall k :: PatchField(patch, k) == if k == s.KeyOf() then Some(s.ValueOf()) else None
  {
    match s
    case SetCount(n) => EmptyPatch.(count := Some(n))
    case SetSize(x) => EmptyPatch.(size := Some(x))
    case SetColor(c) => EmptyPatch.(color := Some(c))
    case SetSpeed(x) => EmptyPatch.(speed := Some(x))
    case SetRadius(x) => EmptyPatch.(radius := Some(x))
    case SetRandomness(x) => EmptyPatch.(randomness := Some(x))
  }

  /** The patch holding every key of a record. */
  function FullPatch(p: Params): Patch {
    Patch(Some(p.count), Some(p.size), Some(p.color), Some(p.speed), Some(p.radius), Some(p.randomness))
  }

  /** Merging the empty patch changes nothing. */
  lemma MergeEmpty(p: Params)
    ensures Merge(p, EmptyPatch) == p
  {
    FieldsDetermine(Merge(p, EmptyPatch), p);
  }

  /** Merging a full record replaces the old one wholesale. */
  lemma MergeFull(p: Params, q: Params)
    ensures Merge(p, FullPatch(q)) == q
  {
    FieldsDetermine(Merge(p, FullPatch(q)), q);
  }

  /** `updateParams` and `regenerate` agree on the record: one assignment is a one-key merge. */
  lemma MergeOneKey(p: Params, s: Setting)
    ensures Merge(p, PatchOf(s)) == Assign(p, s)
  {
    FieldsDetermine(Merge(p, PatchOf(s)), Assign(p, s));
  }

  /** The keys whose change rebuilds the buffers (src/ParticleSystem.js:138). */
  const RebuildKeys: set<Key> := {Count, Radius, Color}

  /** Two records agree on everything baked into the buffers at generation time. */
  predicate SameBaked(p: Params, q: Params) {
    p.count == q.count && p.radius == q.radius && p.color == q.color
  }

  /** A setting of a key outside the rebuild set leaves every baked parameter as it was. */
  lemma CheapSettingKeepsBaked(p: Params, s: Setting)
    requires s.KeyOf() !in RebuildKeys
    ensures SameBaked(p, Assign(p, s))
  {
    assert Field(Assign(p, s), Count) == Field(p, Count);
    assert Field(Assign(p, s), Radius) == Field(p, Radius);
    assert Field(Assign(p, s), Color) == Field(p, Color);
  }
}
