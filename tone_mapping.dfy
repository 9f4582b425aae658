/** The tonemapping node's choice of curve and the define it requests. */
module ToneMapping {
  import opened Common
  import opened ShaderDef

  datatype TonemappingMethod = Reinhard | TonyMcMapface

  /** `#[default]` marks TonyMcMapface. */
  const DefaultMethod: TonemappingMethod := TonyMcMapface

  /** The variants as declared; `#[default]` is an attribute the derive
   *  scans past. */
  function MethodVariant(m: TonemappingMethod): Variant {
    match m
    case Reinhard => Variant("Reinhard", [])
    case TonyMcMapface => Variant("TonyMcMapface", [Attr(Some("default"), MetaPath)])
  }

  function MethodDef(m: TonemappingMethod): string {
    match ArmFor(MethodVariant(m))
    case Ok(arm) => arm.def
    case Err(_) => ""
  }

  lemma ReinhardName()
    ensures DefName("Reinhard") == "REINHARD"
  {
    DefNameSnoc([], 'R');
    assert DefName("R") == "R";
    assert "Re" == "R" + ['e'];
    DefNameSnoc("R", 'e');
    assert DefName("Re") == "RE";
    assert "Rei" == "Re" + ['i'];
    DefNameSnoc("Re", 'i');
    assert DefName("Rei") == "REI";
    assert "Rein" == "Rei" + ['n'];
    DefNameSnoc("Rei", 'n');
    assert DefName("Rein") == "REIN";
    assert "Reinh" == "Rein" + ['h'];
    DefNameSnoc("Rein", 'h');
    assert DefName("Reinh") == "REINH";
    assert "Reinha" == "Reinh" + ['a'];
    DefNameSnoc("Reinh", 'a');
    assert DefName("Reinha") == "REINHA";
    assert "Reinhar" == "Reinha" + ['r'];
    DefNameSnoc("Reinha", 'r');
    assert DefName("Reinhar") == "REINHAR";
    assert "Reinhard" == "Reinhar" + ['d'];
    DefNameSnoc("Reinhar", 'd');
  }

  lemma TonyWordName()
    ensures DefName("Tony") == "TONY"
  {
    DefNameSnoc([], 'T');
    assert DefName("T") == "T";
    assert "To" == "T" + ['o'];
    DefNameSnoc("T", 'o');
    assert DefName("To") == "TO";
    assert "Ton" == "To" + ['n'];
    DefNameSnoc("To", 'n');
    assert DefName("Ton") == "TON";
    assert "Tony" == "Ton" + ['y'];
    DefNameSnoc("Ton", 'y');
  }

  lemma McWordName()
    ensures DefName("Mc") == "MC"
  {
    DefNameSnoc([], 'M');
    assert DefName("M") == "M";
    assert "Mc" == "M" + ['c'];
    DefNameSnoc("M", 'c');
  }

  lemma MapfaceWordName()
    ensures DefName("Mapface") == "MAPFACE"
  {
    DefNameSnoc([], 'M');
    assert DefName("M") == "M";
    assert "Ma" == "M" + ['a'];
    DefNameSnoc("M", 'a');
    assert DefName("Ma") == "MA";
    assert "Map" == "Ma" + ['p'];
    DefNameSnoc("Ma", 'p');
    assert DefName("Map") == "MAP";
    assert "Mapf" == "Map" + ['f'];
    DefNameSnoc("Map", 'f');
    assert DefName("Mapf") == "MAPF";
    assert "Mapfa" == "Mapf" + ['a'];
    DefNameSnoc("Mapf", 'a');
    assert DefName("Mapfa") == "MAPFA";
    assert "Mapfac" == "Mapfa" + ['c'];
    DefNameSnoc("Mapfa", 'c');
    assert DefName("Mapfac") == "MAPFAC";
    assert "Mapface" == "Mapfac" + ['e'];
    DefNameSnoc("Mapfac", 'e');
  }

  lemma TonyMcMapfaceName()
    ensures DefName("TonyMcMapface") == "TONY_MC_MAPFACE"
  {
    assert DefName("TonyMc") == "TONY_MC" by {
      TonyWordName();
      McWordName();
      DefNameAppend("Tony", "Mc");
      assert "Tony" + "Mc" == "TonyMc";
    }
    MapfaceWordName();
    DefNameAppend("TonyMc", "Mapface");
    assert "TonyMc" + "Mapface" == "TonyMcMapface";
  }

  /** The derive's names for both curves; `#[default]` does not disturb the
   *  lookup of `def_name`. */
  lemma MethodDefNames()
    ensures MethodDef(Reinhard) == "REINHARD"
    ensures MethodDef(TonyMcMapface) == "TONY_MC_MAPFACE"
  {
    ReinhardName();
    TonyMcMapfaceName();
  }

  /** The node; its derived `Default` leaves `method` (here `selected`) empty, not the
   *  enum's own default. */
  datatype TonemappingNode = TonemappingNode(selected: Option<TonemappingMethod>)

  const DefaultNode: TonemappingNode := TonemappingNode(None)

  /** `require_shader_defs`: with a method, its define is inserted (or
   *  overwritten) as `Bool(true)`; without one the map is returned as is.
   *  No other key changes. */
  function RequireShaderDefs(node: TonemappingNode, defs: map<string, ShaderDefValue>)
    : (r: map<string, ShaderDefValue>)
    ensures node.selected.None? ==> r == defs
    ensures node.selected.Some? ==> r.Keys == defs.Keys + {MethodDef(node.selected.value)}
    ensures node.selected.Some? ==> r[MethodDef(node.selected.value)] == Bool(true)
    ensures forall k :: k in defs && (node.selected.None? || k != MethodDef(node.selected.value)) ==> r[k] == defs[k]
  {
    match node.selected
    case None => defs
    case Some(m) => defs[MethodDef(m) := Bool(true)]
  }

  /** The node built by `Default` adds nothing, even though the enum's
   *  default would have been TonyMcMapface. */
  lemma DefaultNodeRequestsNothing(defs: map<string, ShaderDefValue>)
    ensures RequireShaderDefs(DefaultNode, defs) == defs
    ensures "TONY_MC_MAPFACE" !in defs ==> "TONY_MC_MAPFACE" !in RequireShaderDefs(DefaultNode, defs)
    ensures "TONY_MC_MAPFACE" in RequireShaderDefs(TonemappingNode(Some(DefaultMethod)), defs)
  {
    MethodDefNames();
  }
}
