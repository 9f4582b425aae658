/** The PBR specular and diffuse model enums, whose define names come from
 *  the `ShaderDefEnum` derive; two specular variants override theirs. */
module PbrShaderDefs {
  import opened Common
  import opened ShaderDef

  datatype PbrSpecular = Beckmann | BlinnPhong | GGX | GTR | Anisotropic
  datatype PbrDiffuse = Lambert | Burley

  function DefNameOverride(name: string): Attr {
    Attr(Some("def_name"), NameValue(name))
  }

  /** The variants as declared, attributes included. */
  function SpecularVariant(s: PbrSpecular): Variant {
    match s
    case Beckmann => Variant("Beckmann", [])
    case BlinnPhong => Variant("BlinnPhong", [])
    case GGX => Variant("GGX", [DefNameOverride("GGX")])
    case GTR => Variant("GTR", [DefNameOverride("GTR")])
    case Anisotropic => Variant("Anisotropic", [])
  }

  function DiffuseVariant(d: PbrDiffuse): Variant {
    match d
    case Lambert => Variant("Lambert", [])
    case Burley => Variant("Burley", [])
  }

  const SpecularDecl: seq<Variant> :=
    [SpecularVariant(Beckmann), SpecularVariant(BlinnPhong), SpecularVariant(GGX),
     SpecularVariant(GTR), SpecularVariant(Anisotropic)]

  const DiffuseDecl: seq<Variant> := [DiffuseVariant(Lambert), DiffuseVariant(Burley)]

  /** The define each specular model requests, as the derive generates it. */
  function SpecularDef(s: PbrSpecular): string {
    match ArmFor(SpecularVariant(s))
    case Ok(arm) => arm.def
    case Err(_) => ""
  }

  function DiffuseDef(d: PbrDiffuse): string {
    match ArmFor(DiffuseVariant(d))
    case Ok(arm) => arm.def
    case Err(_) => ""
  }

  lemma BlinnWordName()
    ensures DefName("Blinn") == "BLINN"
  {
    DefNameSnoc([], 'B');
    assert DefName("B") == "B";
    assert "Bl" == "B" + ['l'];
    DefNameSnoc("B", 'l');
    assert DefName("Bl") == "BL";
    assert "Bli" == "Bl" + ['i'];
    DefNameSnoc("Bl", 'i');
    assert DefName("Bli") == "BLI";
    assert "Blin" == "Bli" + ['n'];
    DefNameSnoc("Bli", 'n');
    assert DefName("Blin") == "BLIN";
    assert "Blinn" == "Blin" + ['n'];
    DefNameSnoc("Blin", 'n');
  }

  lemma PhongWordName()
    ensures DefName("Phong") == "PHONG"
  {
    DefNameSnoc([], 'P');
    assert DefName("P") == "P";
    assert "Ph" == "P" + ['h'];
    DefNameSnoc("P", 'h');
    assert DefName("Ph") == "PH";
    assert "Pho" == "Ph" + ['o'];
    DefNameSnoc("Ph", 'o');
    assert DefName("Pho") == "PHO";
    assert "Phon" == "Pho" + ['n'];
    DefNameSnoc("Pho", 'n');
    assert DefName("Phon") == "PHON";
    assert "Phong" == "Phon" + ['g'];
    DefNameSnoc("Phon", 'g');
  }

  lemma BlinnPhongName()
    ensures DefName("BlinnPhong") == "BLINN_PHONG"
  {
    BlinnWordName();
    PhongWordName();
    DefNameAppend("Blinn", "Phong");
    assert "Blinn" + "Phong" == "BlinnPhong";
  }

  lemma AnisoWordName()
    ensures DefName("Aniso") == "ANISO"
  {
    DefNameSnoc([], 'A');
    assert DefName("A") == "A";
    assert "An" == "A" + ['n'];
    DefNameSnoc("A", 'n');
    assert DefName("An") == "AN";
    assert "Ani" == "An" + ['i'];
    DefNameSnoc("An", 'i');
    assert DefName("Ani") == "ANI";
    assert "Anis" == "Ani" + ['s'];
    DefNameSnoc("Ani", 's');
    assert DefName("Anis") == "ANIS";
    assert "Aniso" == "Anis" + ['o'];
    DefNameSnoc("Anis", 'o');
  }

  lemma TropWordName()
    ensures DefName("trop") == "TROP"
  {
    DefNameSnoc([], 't');
    assert DefName("t") == "T";
    assert "tr" == "t" + ['r'];
    DefNameSnoc("t", 'r');
    assert DefName("tr") == "TR";
    assert "tro" == "tr" + ['o'];
    DefNameSnoc("tr", 'o');
    assert DefName("tro") == "TRO";
    assert "trop" == "tro" + ['p'];
    DefNameSnoc("tro", 'p');
  }

  lemma TropicWordName()
    ensures DefName("tropic") == "TROPIC"
  {
    TropWordName();
    assert "tropi" == "trop" + ['i'];
    DefNameSnoc("trop", 'i');
    assert DefName("tropi") == "TROPI";
    assert "tropic" == "tropi" + ['c'];
    DefNameSnoc("tropi", 'c');
  }

  lemma AnisotropicName()
    ensures DefName("Anisotropic") == "ANISOTROPIC"
  {
    AnisoWordName();
    TropicWordName();
    DefNameAppend("Aniso", "tropic");
    assert "Aniso" + "tropic" == "Anisotropic";
  }

  lemma BeckmannName()
    ensures DefName("Beckmann") == "BECKMANN"
  {
    DefNameSnoc([], 'B');
    assert DefName("B") == "B";
    assert "Be" == "B" + ['e'];
    DefNameSnoc("B", 'e');
    assert DefName("Be") == "BE";
    assert "Bec" == "Be" + ['c'];
    DefNameSnoc("Be", 'c');
    assert DefName("Bec") == "BEC";
    assert "Beck" == "Bec" + ['k'];
    DefNameSnoc("Bec", 'k');
    assert DefName("Beck") == "BECK";
    assert "Beckm" == "Beck" + ['m'];
    DefNameSnoc("Beck", 'm');
    assert DefName("Beckm") == "BECKM";
    assert "Beckma" == "Beckm" + ['a'];
    DefNameSnoc("Beckm", 'a');
    assert DefName("Beckma") == "BECKMA";
    assert "Beckman" == "Beckma" + ['n'];
    DefNameSnoc("Beckma", 'n');
    assert DefName("Beckman") == "BECKMAN";
    assert "Beckmann" == "Beckman" + ['n'];
    DefNameSnoc("Beckman", 'n');
  }

  lemma LambertName()
    ensures DefName("Lambert") == "LAMBERT"
  {
    DefNameSnoc([], 'L');
    assert DefName("L") == "L";
    assert "La" == "L" + ['a'];
    DefNameSnoc("L", 'a');
    assert DefName("La") == "LA";
    assert "Lam" == "La" + ['m'];
    DefNameSnoc("La", 'm');
    assert DefName("Lam") == "LAM";
    assert "Lamb" == "Lam" + ['b'];
    DefNameSnoc("Lam", 'b');
    assert DefName("Lamb") == "LAMB";
    assert "Lambe" == "Lamb" + ['e'];
    DefNameSnoc("Lamb", 'e');
    assert DefName("Lambe") == "LAMBE";
    assert "Lamber" == "Lambe" + ['r'];
    DefNameSnoc("Lambe", 'r');
    assert DefName("Lamber") == "LAMBER";
    assert "Lambert" == "Lamber" + ['t'];
    DefNameSnoc("Lamber", 't');
  }

  lemma BurleyName()
    ensures DefName("Burley") == "BURLEY"
  {
    DefNameSnoc([], 'B');
    assert DefName("B") == "B";
    assert "Bu" == "B" + ['u'];
    DefNameSnoc("B", 'u');
    assert DefName("Bu") == "BU";
    assert "Bur" == "Bu" + ['r'];
    DefNameSnoc("Bu", 'r');
    assert DefName("Bur") == "BUR";
    assert "Burl" == "Bur" + ['l'];
    DefNameSnoc("Bur", 'l');
    assert DefName("Burl") == "BURL";
    assert "Burle" == "Burl" + ['e'];
    DefNameSnoc("Burl", 'e');
    assert DefName("Burle") == "BURLE";
    assert "Burley" == "Burle" + ['y'];
    DefNameSnoc("Burle", 'y');
  }

  /** Without their overrides GGX and GTR would get a separator before every
   *  capital. */
  lemma AcronymNames()
    ensures DefName("GGX") == "G_G_X" && DefName("GTR") == "G_T_R"
  {
    AcronymName();
    DefNameSnoc([], 'G');
    assert DefName("G") == "G";
    assert "GT" == "G" + ['T'];
    DefNameSnoc("G", 'T');
    assert DefName("GT") == "G_T";
    assert "GTR" == "GT" + ['R'];
    DefNameSnoc("GT", 'R');
  }

  /** A variant without attributes gets the converted identifier. */
  lemma PlainArm(v: Variant, name: string)
    requires v.attrs == [] && DefName(v.ident) == name
    ensures ArmFor(v) == Ok(Arm(v.ident, name))
  {
  }

  /** The expected define of each specular model: the converted identifier,
   *  except for GGX and GTR whose overrides keep the acronym. */
  lemma SpecularArm(s: PbrSpecular)
    ensures ArmFor(SpecularVariant(s)) == Ok(Arm(SpecularVariant(s).ident,
      match s
      case Beckmann => "BECKMANN"
      case BlinnPhong => "BLINN_PHONG"
      case GGX => "GGX"
      case GTR => "GTR"
      case Anisotropic => "ANISOTROPIC"))
  {
    match s
    case Beckmann => BeckmannName();
    case BlinnPhong => BlinnPhongName();
    case GGX =>
    case GTR =>
    case Anisotropic => AnisotropicName();
  }

  lemma DiffuseArm(d: PbrDiffuse)
    ensures ArmFor(DiffuseVariant(d)) == Ok(Arm(DiffuseVariant(d).ident,
      match d
      case Lambert => "LAMBERT"
      case Burley => "BURLEY"))
  {
    match d
    case Lambert => LambertName();
    case Burley => BurleyName();
  }

  /** The derive accepts both enums and generates one arm per variant, in
   *  declaration order. */
  lemma DerivedArms()
    ensures Arms(SpecularDecl).Ok? && |Arms(SpecularDecl).value| == 5
    ensures forall i :: 0 <= i < 5 ==> Ok(Arms(SpecularDecl).value[i]) == ArmFor(SpecularDecl[i])
    ensures Arms(DiffuseDecl).Ok? && |Arms(DiffuseDecl).value| == 2
    ensures forall i :: 0 <= i < 2 ==> Ok(Arms(DiffuseDecl).value[i]) == ArmFor(DiffuseDecl[i])
  {
    forall i | 0 <= i < 5 ensures ArmFor(SpecularDecl[i]).Ok? {
      SpecularArm(match i case 0 => Beckmann case 1 => BlinnPhong case 2 => GGX case 3 => GTR case _ => Anisotropic);
    }
    forall i | 0 <= i < 2 ensures ArmFor(DiffuseDecl[i]).Ok? {
      DiffuseArm(if i == 0 then Lambert else Burley);
    }
    ArmsAllOk(SpecularDecl);
    ArmsAllOk(DiffuseDecl);
  }

  /** Distinct variants request distinct defines. */
  lemma DefineNamesDistinct()
    ensures forall a: PbrSpecular, b: PbrSpecular :: a != b ==> SpecularDef(a) != SpecularDef(b)
    ensures DiffuseDef(Lambert) != DiffuseDef(Burley)
  {
    forall a: PbrSpecular, b: PbrSpecular | a != b
      ensures SpecularDef(a) != SpecularDef(b)
    {
      SpecularArm(a);
      SpecularArm(b);
    }
    DiffuseArm(Lambert);
    DiffuseArm(Burley);
  }
}
