/** Small shared vocabulary: optional values, results of operations that can
 *  fail (a Rust `panic!`, `unwrap` on `None` or `unreachable!`), bytes and the
 *  real-valued vectors the renderer passes around. */
module Common {
  datatype Option<T> = None | Some(value: T)

  /** The outcome of an operation that either yields a value or stops the
   *  program (`Panic`) or returns a typed error (`Fail`). */
  datatype Result<T, E> = Ok(value: T) | Err(error: E)

  /** Why a Rust operation would stop the program. */
  datatype Panic =
    | UnwrapNone          // `Option::unwrap` on `None`
    | Unreachable         // `unreachable!()`
    | AssertFailed        // `assert!` with a false condition
    | ExplicitPanic       // `panic!()` / `todo!()`
    | IndexOutOfBounds    // slice or vector index outside its length
    | MissingKey          // indexing a map with a key it does not hold

  newtype byte = x: int | 0 <= x < 256

  /** Unsigned 32-bit truncation, as Rust's `as u32` on a `usize`. */
  function AsU32(n: nat): (r: nat)
    ensures r < 0x1_0000_0000
    ensures n < 0x1_0000_0000 ==> r == n
  {
    n % 0x1_0000_0000
  }

  datatype Vec2 = Vec2(x: real, y: real)
  datatype Vec3 = Vec3(x: real, y: real, z: real)
  datatype Vec4 = Vec4(x: real, y: real, z: real, w: real)

  const ZERO3: Vec3 := Vec3(0.0, 0.0, 0.0)

  function Neg3(v: Vec3): Vec3 {
    Vec3(-v.x, -v.y, -v.z)
  }

  function Dot3(a: Vec3, b: Vec3): real {
    a.x * b.x + a.y * b.y + a.z * b.z
  }

  function Add3(a: Vec3, b: Vec3): Vec3 {
    Vec3(a.x + b.x, a.y + b.y, a.z + b.z)
  }

  function Sub3(a: Vec3, b: Vec3): Vec3 {
    Vec3(a.x - b.x, a.y - b.y, a.z - b.z)
  }

  function Scale3(a: Vec3, k: real): Vec3 {
    Vec3(a.x * k, a.y * k, a.z * k)
  }

  function Cross3(a: Vec3, b: Vec3): Vec3 {
    Vec3(a.y * b.z - a.z * b.y, a.z * b.x - a.x * b.z, a.x * b.y - a.y * b.x)
  }

  /** The minimum of a non-empty sequence of naturals. */
  function MinOf(s: seq<nat>): (m: nat)
    requires |s| > 0
    ensures m in s
    ensures forall i :: 0 <= i < |s| ==> m <= s[i]
  {
    if |s| == 1 then s[0]
    else
      var rest := MinOf(s[1..]);
      assert s[1..][0] == s[1];
      if s[0] <= rest then s[0] else rest
  }

  /** Sum of a sequence of naturals. */
  function Sum(s: seq<nat>): nat {
    if s == [] then 0 else s[0] + Sum(s[1..])
  }

  lemma {:induction false} SumAppend(a: seq<nat>, b: seq<nat>)
    ensures Sum(a + b) == Sum(a) + Sum(b)
  {
    if a == [] {
      assert a + b == b;
    } else {
      assert (a + b)[1..] == a[1..] + b;
      SumAppend(a[1..], b);
    }
  }

  /** Concatenation of a sequence of sequences. */
  function Flatten<T>(ss: seq<seq<T>>): seq<T> {
    if ss == [] then [] else ss[0] + Flatten(ss[1..])
  }

  lemma {:induction false} FlattenAppend<T>(a: seq<seq<T>>, b: seq<seq<T>>)
    ensures Flatten(a + b) == Flatten(a) + Flatten(b)
  {
    if a == [] {
      assert a + b == b;
    } else {
      assert (a + b)[1..] == a[1..] + b;
      FlattenAppend(a[1..], b);
    }
  }
}
