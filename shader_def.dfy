/** The `ShaderDefEnum` derive: every enum variant becomes a shader define
 *  whose name is the variant's identifier in UPPER_SNAKE case, unless a
 *  `def_name = "..."` attribute gives the name verbatim. */
module ShaderDef {
  import opened Common

  predicate IsAsciiUpper(c: char) { 'A' <= c <= 'Z' }
  predicate IsAsciiLower(c: char) { 'a' <= c <= 'z' }

  /** `char::to_ascii_uppercase`: lowercase ASCII letters are shifted, every
   *  other character is left alone. */
  function ToAsciiUpper(c: char): (u: char)
    ensures !IsAsciiLower(u)
    ensures IsAsciiLower(c) <==> u != c
    ensures IsAsciiUpper(u) <==> IsAsciiUpper(c) || IsAsciiLower(c)
  {
    if IsAsciiLower(c) then (c as int - 32) as char else c
  }

  /** The define name `variant_to_def` builds, stated as the string after
   *  its loop has seen every character of `s`: the last character is
   *  upper-cased and, when it is an ASCII capital and something was
   *  already written, preceded by an underscore. */
  function DefName(s: string): (r: string)
    ensures r == [] <==> s == []
    decreases |s|
  {
    if s == [] then []
    else
      var init := DefName(s[..|s| - 1]);
      var c := s[|s| - 1];
      init + (if IsAsciiUpper(c) && init != [] then "_" else "") + [ToAsciiUpper(c)]
  }

  /** `variant_to_def`: walks the identifier once, pushing a separator
   *  before each capital that is not the first character written. */
  method VariantToDef(v: string) returns (def: string)
    ensures def == DefName(v)
  {
    def := [];
    for i := 0 to |v|
      invariant def == DefName(v[..i])
    {
      var c := v[i];
      assert v[..i + 1][..i] == v[..i];
      if IsAsciiUpper(c) && def != [] {
        def := def + "_";
      }
      def := def + [ToAsciiUpper(c)];
    }
    assert v[..|v|] == v;
  }

  // ---------------------------------------------------------------------
  // An independent reading of the naming rule, left to right: the first
  // character is upper-cased, every later capital gets an underscore first.

  function Separated(t: string): string {
    if t == [] then []
    else (if IsAsciiUpper(t[0]) then "_" else "") + [ToAsciiUpper(t[0])] + Separated(t[1..])
  }

  function SnakeUpper(s: string): (r: string)
    ensures r == [] <==> s == []
    ensures s != [] ==> r[0] == ToAsciiUpper(s[0])
  {
    if s == [] then [] else [ToAsciiUpper(s[0])] + Separated(s[1..])
  }

  /** Number of ASCII capitals in `t`. */
  function CountUpper(t: string): nat {
    if t == [] then 0 else (if IsAsciiUpper(t[0]) then 1 else 0) + CountUpper(t[1..])
  }

  lemma {:induction false} SeparatedSnoc(t: string, c: char)
    ensures Separated(t + [c]) == Separated(t) + (if IsAsciiUpper(c) then "_" else "") + [ToAsciiUpper(c)]
  {
    if t == [] {
      assert t + [c] == [c];
    } else {
      assert (t + [c])[0] == t[0];
      assert (t + [c])[1..] == t[1..] + [c];
      SeparatedSnoc(t[1..], c);
    }
  }

  /** Words convert independently: the rule looks at one character at a time. */
  lemma {:induction false} SeparatedAppend(a: string, b: string)
    ensures Separated(a + b) == Separated(a) + Separated(b)
  {
    if a == [] {
      assert a + b == b;
    } else {
      assert (a + b)[0] == a[0];
      assert (a + b)[1..] == a[1..] + b;
      SeparatedAppend(a[1..], b);
    }
  }

  /** The loop's right-to-left definition agrees with the left-to-right one. */
  lemma {:induction false} DefNameIsSnakeUpper(s: string)
    ensures DefName(s) == SnakeUpper(s)
    decreases |s|
  {
    if s == [] {
    } else if |s| == 1 {
      assert s[..0] == [];
      assert s[1..] == [];
    } else {
      var init := s[..|s| - 1];
      var c := s[|s| - 1];
      var sep: string := if IsAsciiUpper(c) then "_" else "";
      assert DefName(s) == DefName(init) + sep + [ToAsciiUpper(c)];
      DefNameIsSnakeUpper(init);
      assert init[0] == s[0];
      assert DefName(init) == [ToAsciiUpper(s[0])] + Separated(init[1..]);
      SeparatedSnoc(init[1..], c);
      assert s[1..] == init[1..] + [c];
    }
  }

  lemma {:induction false} SeparatedFacts(t: string)
    ensures |Separated(t)| == |t| + CountUpper(t)
    ensures forall i :: 0 <= i < |Separated(t)| ==> !IsAsciiLower(Separated(t)[i])
  {
    if t != [] {
      SeparatedFacts(t[1..]);
      var head := (if IsAsciiUpper(t[0]) then "_" else "") + [ToAsciiUpper(t[0])];
      assert Separated(t) == head + Separated(t[1..]);
      forall i | 0 <= i < |Separated(t)|
        ensures !IsAsciiLower(Separated(t)[i])
      {
        if i >= |head| {
          assert Separated(t)[i] == Separated(t[1..])[i - |head|];
        }
      }
    }
  }

  /** The output is one character per input character plus one underscore
   *  per capital after the first position; the empty name stays empty. */
  lemma DefNameLength(s: string)
    ensures |DefName(s)| == if s == [] then 0 else |s| + CountUpper(s[1..])
  {
    DefNameIsSnakeUpper(s);
    if s != [] {
      SeparatedFacts(s[1..]);
    }
  }

  /** No lowercase ASCII letter survives. */
  lemma NoLowercase(s: string)
    ensures forall i :: 0 <= i < |DefName(s)| ==> !IsAsciiLower(DefName(s)[i])
  {
    DefNameIsSnakeUpper(s);
    if s != [] {
      SeparatedFacts(s[1..]);
      assert SnakeUpper(s) == [ToAsciiUpper(s[0])] + Separated(s[1..]);
      forall i | 0 <= i < |DefName(s)|
        ensures !IsAsciiLower(DefName(s)[i])
      {
        if i > 0 {
          assert SnakeUpper(s)[i] == Separated(s[1..])[i - 1];
        }
      }
    }
  }

  /** Words convert independently: the second word gets a separator when it
   *  starts with a capital and the first is not empty. */
  lemma {:induction false} DefNameAppend(a: string, b: string)
    ensures DefName(a + b) == DefName(a) + Joint(a, b) + DefName(b)
    decreases |b|
  {
    if b == [] {
      assert a + b == a;
    } else {
      var init := b[..|b| - 1];
      var c := b[|b| - 1];
      var last := [ToAsciiUpper(c)];
      assert (a + b)[..|a + b| - 1] == a + init;
      DefNameAppend(a, init);
      var sep := if IsAsciiUpper(c) && DefName(a + init) != [] then "_" else "";
      assert DefName(a + b) == DefName(a + init) + sep + last;
      if init != [] {
        assert init[0] == b[0];
        assert DefName(b) == DefName(init) + sep + last;
        assert DefName(a + init) == DefName(a) + Joint(a, b) + DefName(init);
      } else {
        assert a + init == a;
        assert DefName(b) == last;
        assert sep == Joint(a, b);
      }
    }
  }

  /** The separator between the converted words. */
  function Joint(a: string, b: string): string {
    if a != [] && b != [] && IsAsciiUpper(b[0]) then "_" else ""
  }

  /** One more character of the identifier: the loop's step, for the
   *  worked examples below. */
  lemma DefNameSnoc(s: string, c: char)
    ensures DefName(s + [c]) == DefName(s) + (if IsAsciiUpper(c) && DefName(s) != [] then "_" else "") + [ToAsciiUpper(c)]
  {
    assert (s + [c])[..|s|] == s;
  }

  // Worked examples, one character at a time, a word per lemma.

  lemma ExampleWordName()
    ensures DefName("Example") == "EXAMPLE"
  {
    DefNameSnoc([], 'E');
    assert DefName("E") == "E";
    assert "Ex" == "E" + ['x'];
    DefNameSnoc("E", 'x');
    assert DefName("Ex") == "EX";
    assert "Exa" == "Ex" + ['a'];
    DefNameSnoc("Ex", 'a');
    assert DefName("Exa") == "EXA";
    assert "Exam" == "Exa" + ['m'];
    DefNameSnoc("Exa", 'm');
    assert DefName("Exam") == "EXAM";
    assert "Examp" == "Exam" + ['p'];
    DefNameSnoc("Exam", 'p');
    assert DefName("Examp") == "EXAMP";
    assert "Exampl" == "Examp" + ['l'];
    DefNameSnoc("Examp", 'l');
    assert DefName("Exampl") == "EXAMPL";
    assert "Example" == "Exampl" + ['e'];
    DefNameSnoc("Exampl", 'e');
  }

  /** The derive's own unit test. */
  lemma ExampleDefName()
    ensures DefName("ExampleDef") == "EXAMPLE_DEF"
  {
    ExampleWordName();
    assert "ExampleD" == "Example" + ['D'];
    DefNameSnoc("Example", 'D');
    assert DefName("ExampleD") == "EXAMPLE_D";
    assert "ExampleDe" == "ExampleD" + ['e'];
    DefNameSnoc("ExampleD", 'e');
    assert DefName("ExampleDe") == "EXAMPLE_DE";
    assert "ExampleDef" == "ExampleDe" + ['f'];
    DefNameSnoc("ExampleDe", 'f');
  }

  lemma OtherName()
    ensures DefName("Other") == "OTHER"
  {
    DefNameSnoc([], 'O');
    assert DefName("O") == "O";
    assert "Ot" == "O" + ['t'];
    DefNameSnoc("O", 't');
    assert DefName("Ot") == "OT";
    assert "Oth" == "Ot" + ['h'];
    DefNameSnoc("Ot", 'h');
    assert DefName("Oth") == "OTH";
    assert "Othe" == "Oth" + ['e'];
    DefNameSnoc("Oth", 'e');
    assert DefName("Othe") == "OTHE";
    assert "Other" == "Othe" + ['r'];
    DefNameSnoc("Othe", 'r');
  }

  /** Consecutive capitals each get a separator. */
  lemma AcronymName()
    ensures DefName("GGX") == "G_G_X"
  {
    DefNameSnoc([], 'G');
    assert DefName("G") == "G";
    assert "GG" == "G" + ['G'];
    DefNameSnoc("G", 'G');
    assert DefName("GG") == "G_G";
    assert "GGX" == "GG" + ['X'];
    DefNameSnoc("GG", 'X');
  }

  // ---------------------------------------------------------------------
  // The derive itself.

  /** The parsed form of an attribute's meta item. */
  datatype Meta = MetaPath | MetaList | NameValue(value: string)

  /** An attribute on a variant. `ident` is `None` when the attribute's path
   *  is not a single identifier (`#[a::b]`), which the derive's lookup
   *  unwraps and so panics on. */
  datatype Attr = Attr(ident: Option<string>, meta: Meta)

  datatype Variant = Variant(ident: string, attrs: seq<Attr>)

  datatype DeriveInput = EnumInput(variants: seq<Variant>) | StructInput | UnionInput

  /** A generated match arm `Self::ident => "def".to_string()`. */
  datatype Arm = Arm(variant: string, def: string)

  /** The attributes before position `k` are all single identifiers other
   *  than `def_name`, so the lookup passes them without panicking. */
  predicate PassedBefore(attrs: seq<Attr>, k: nat)
    requires k <= |attrs|
  {
    forall j :: 0 <= j < k ==> attrs[j].ident.Some? && attrs[j].ident != Some("def_name")
  }

  /** `iter().find(|attr| attr.path().get_ident().unwrap() == "def_name")`:
   *  the first `def_name` attribute, scanning in order; a path that is not
   *  a single identifier, met before it, panics on the `unwrap`. */
  function FindDefName(attrs: seq<Attr>): (r: Result<Option<Attr>, Panic>)
    ensures r.Ok? && r.value.Some? ==>
      exists k :: 0 <= k < |attrs| && attrs[k] == r.value.value && attrs[k].ident == Some("def_name")
                  && PassedBefore(attrs, k)
    ensures r.Ok? && r.value.None? <==> PassedBefore(attrs, |attrs|)
    ensures r.Err? <==> exists k :: 0 <= k < |attrs| && attrs[k].ident.None? && PassedBefore(attrs, k)
    ensures r.Err? ==> r.error == UnwrapNone
    decreases |attrs|
  {
    if attrs == [] then Ok(None)
    else if attrs[0].ident.None? then
      assert PassedBefore(attrs, 0);
      Err(UnwrapNone)
    else if attrs[0].ident == Some("def_name") then
      assert PassedBefore(attrs, 0);
      Ok(Some(attrs[0]))
    else
      var rest := FindDefName(attrs[1..]);
      assert forall k :: 0 <= k < |attrs| - 1 ==> (PassedBefore(attrs[1..], k) <==> PassedBefore(attrs, k + 1)) by {
        forall k | 0 <= k < |attrs| - 1
          ensures PassedBefore(attrs[1..], k) <==> PassedBefore(attrs, k + 1)
        {
          if PassedBefore(attrs, k + 1) {
            assert forall j :: 0 <= j < k ==> attrs[1..][j] == attrs[j + 1];
          }
          if PassedBefore(attrs[1..], k) {
            forall j | 0 <= j < k + 1 ensures attrs[j].ident.Some? && attrs[j].ident != Some("def_name") {
              if j > 0 { assert attrs[j] == attrs[1..][j - 1]; }
            }
          }
        }
      }
      assert PassedBefore(attrs[1..], |attrs| - 1) <==> PassedBefore(attrs, |attrs|) by {
        if PassedBefore(attrs, |attrs|) {
          assert forall j :: 0 <= j < |attrs| - 1 ==> attrs[1..][j] == attrs[j + 1];
        }
        if PassedBefore(attrs[1..], |attrs| - 1) {
          forall j | 0 <= j < |attrs| ensures attrs[j].ident.Some? && attrs[j].ident != Some("def_name") {
            if j > 0 { assert attrs[j] == attrs[1..][j - 1]; }
          }
        }
      }
      assert rest.Ok? && rest.value.Some? ==>
        exists k :: 0 <= k < |attrs| && attrs[k] == rest.value.value && attrs[k].ident == Some("def_name")
                    && PassedBefore(attrs, k) by {
        if rest.Ok? && rest.value.Some? {
          var k :| 0 <= k < |attrs| - 1 && attrs[1..][k] == rest.value.value && attrs[1..][k].ident == Some("def_name")
                   && PassedBefore(attrs[1..], k);
          assert attrs[k + 1] == attrs[1..][k];
        }
      }
      assert rest.Err? <==> exists k :: 0 <= k < |attrs| && attrs[k].ident.None? && PassedBefore(attrs, k) by {
        if rest.Err? {
          var k :| 0 <= k < |attrs| - 1 && attrs[1..][k].ident.None? && PassedBefore(attrs[1..], k);
          assert attrs[k + 1] == attrs[1..][k];
        }
        if exists k :: 0 <= k < |attrs| && attrs[k].ident.None? && PassedBefore(attrs, k) {
          var k :| 0 <= k < |attrs| && attrs[k].ident.None? && PassedBefore(attrs, k);
          assert k > 0;
          assert attrs[1..][k - 1] == attrs[k];
        }
      }
      rest
  }

  /** The arm the derive generates for one variant. */
  function ArmFor(v: Variant): Result<Arm, Panic> {
    match FindDefName(v.attrs)
    case Err(e) => Err(e)
    case Ok(None) => Ok(Arm(v.ident, DefName(v.ident)))
    case Ok(Some(a)) =>
      if a.meta.NameValue? then Ok(Arm(v.ident, a.meta.value)) else Err(ExplicitPanic)
  }

  /** The first `def_name` attribute decides the arm, wherever it stands:
   *  in name = value form its value is used verbatim, in any other form the
   *  derive panics; a non-identifier path before it panics first; without
   *  one the identifier is converted. */
  lemma ArmForRule(v: Variant, k: nat)
    ensures PassedBefore(v.attrs, |v.attrs|) ==> ArmFor(v) == Ok(Arm(v.ident, DefName(v.ident)))
    ensures k < |v.attrs| && v.attrs[k].ident == Some("def_name") && PassedBefore(v.attrs, k) ==>
      && (v.attrs[k].meta.NameValue? ==> ArmFor(v) == Ok(Arm(v.ident, v.attrs[k].meta.value)))
      && (!v.attrs[k].meta.NameValue? ==> ArmFor(v) == Err(ExplicitPanic))
    ensures k < |v.attrs| && v.attrs[k].ident.None? && PassedBefore(v.attrs, k) ==> ArmFor(v) == Err(UnwrapNone)
  {
  }

  /** A variant none of whose attributes is `def_name`, and all of whose
   *  paths are single identifiers, gets no override and no panic. */
  lemma NoDefNameFound(attrs: seq<Attr>)
    requires forall a :: a in attrs ==> a.ident.Some? && a.ident != Some("def_name")
    ensures FindDefName(attrs) == Ok(None)
  {
    assert PassedBefore(attrs, |attrs|) by {
      forall j | 0 <= j < |attrs| ensures attrs[j].ident.Some? && attrs[j].ident != Some("def_name") {
        assert attrs[j] in attrs;
      }
    }
  }

  /** All arms of an enum, or the panic of the first variant that panics. */
  function Arms(vs: seq<Variant>): Result<seq<Arm>, Panic> {
    if vs == [] then Ok([])
    else
      match ArmFor(vs[0])
      case Err(e) => Err(e)
      case Ok(arm) =>
        match Arms(vs[1..])
        case Err(e) => Err(e)
        case Ok(rest) => Ok([arm] + rest)
  }

  /** When no variant panics, the derive yields one arm per variant. */
  lemma {:induction false} ArmsAllOk(vs: seq<Variant>)
    requires forall i :: 0 <= i < |vs| ==> ArmFor(vs[i]).Ok?
    ensures Arms(vs).Ok? && |Arms(vs).value| == |vs|
    ensures forall i :: 0 <= i < |vs| ==> Ok(Arms(vs).value[i]) == ArmFor(vs[i])
  {
    if vs != [] {
      assert ArmFor(vs[0]).Ok?;
      ArmsAllOk(vs[1..]);
      assert forall i :: 1 <= i < |vs| ==> vs[1..][i - 1] == vs[i];
    }
  }

  /** `expand_shader_def_enum`: anything but an enum panics; otherwise one
   *  arm per variant, in declaration order. */
  method ExpandShaderDefEnum(input: DeriveInput) returns (r: Result<seq<Arm>, Panic>)
    ensures r.Ok? <==> input.EnumInput? && forall i :: 0 <= i < |input.variants| ==> ArmFor(input.variants[i]).Ok?
    ensures r.Ok? ==> |r.value| == |input.variants|
    ensures r.Ok? ==> forall i :: 0 <= i < |r.value| ==> Ok(r.value[i]) == ArmFor(input.variants[i])
  {
    if !input.EnumInput? {
      return Err(ExplicitPanic);
    }
    var vs := input.variants;
    var arms: seq<Arm> := [];
    for i := 0 to |vs|
      invariant |arms| == i
      invariant forall j :: 0 <= j < i ==> Ok(arms[j]) == ArmFor(vs[j])
    {
      var a := ArmFor(vs[i]);
      if a.Err? {
        return Err(a.error);
      }
      arms := arms + [a.value];
    }
    r := Ok(arms);
  }

  /** The value the generated `to_def` pairs every name with. */
  datatype ShaderDefValue = Bool(b: bool) | Int(i: int) | UInt(u: nat)

  /** The generated `to_def`: the arm's name, always with `Bool(true)`. */
  function ToDef(arms: seq<Arm>, variant: string): (r: Option<(string, ShaderDefValue)>)
    ensures r.Some? ==> r.value.1 == Bool(true)
    ensures r.Some? <==> exists i :: 0 <= i < |arms| && arms[i].variant == variant
    ensures r.Some? ==> exists i :: 0 <= i < |arms| && arms[i] == Arm(variant, r.value.0)
  {
    if arms == [] then None
    else if arms[0].variant == variant then Some((arms[0].def, Bool(true)))
    else
      var rest := ToDef(arms[1..], variant);
      assert forall i :: 0 <= i < |arms| - 1 ==> arms[1..][i] == arms[i + 1];
      if rest.Some? then
        var k :| 0 <= k < |arms[1..]| && arms[1..][k] == Arm(variant, rest.value.0);
        assert arms[k + 1] == Arm(variant, rest.value.0);
        rest
      else
        rest
  }
}
