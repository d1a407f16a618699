/**
 * The stocktake item generator: from the screw, saddle, box and mesh
 * configuration it lists every item to be counted, each with a
 * deterministic id. The configuration is a parameter here; reading the
 * JSON config files is not modelled.
 */
module StocktakeItems {
  import opened Builtins
  import opened Collections

  /**
   * One item to count. Colour-based items (screws, trims, saddles) and mesh
   * rolls carry a colour; box items carry their type and pack size instead
   * (their `colour` is JSON null, see `ColourOf`).
   */
  datatype Item =
    | ColourItem(category: string, typeName: string, colour: string, unit: string, boxSize: Option<int>, id: string)
    | BoxItem(category: string, boxType: string, typeName: string, description: string, unit: string,
              packSize: int, id: string)
    | MeshItem(category: string, meshType: string, typeName: string, widthMm: int, lengthM: int,
               colour: string, unit: string, id: string)

  function ColourOf(it: Item): Option<string>
  {
    if it.BoxItem? then None else Some(it.colour)
  }

  /** What distinguishes the four one-item-per-colour generators. */
  datatype ColourKind = ColourKind(category: string, typeName: string, unit: string, idPrefix: string,
                                   boxSize: Option<int>)

  const ScrewKind := ColourKind("screws", "Screws", "boxes", "screw_", Some(1000))
  const TrimKind := ColourKind("trims", "Trims", "trims", "trim_", None)
  const CorrugatedKind := ColourKind("corrugated_saddles", "Corrugated Saddles", "saddles", "corrugated_saddle_", None)
  const TrimdekKind := ColourKind("trimdek_saddles", "Trimdek Saddles", "saddles", "trimdek_saddle_", None)

  /** One entry of the box configuration's `box_types`, in file order. */
  datatype BoxTypeInfo = BoxTypeInfo(key: string, name: string, description: string, packSize: int)

  datatype MeshKind = MeshKind(meshType: string, category: string, typeName: string, idPrefix: string)

  const Mesh4mmKind := MeshKind("4mm_aluminium", "mesh_4mm", "4mm Aluminium Mesh", "mesh_4mm_")
  const Mesh2mmKind := MeshKind("2mm_ember_guard", "mesh_2mm", "2mm Ember Guard Mesh", "mesh_2mm_")

  /** A mesh type's configured roll widths (mm) and lengths (m), in file order. */
  datatype MeshSizes = MeshSizes(widths: seq<int>, lengths: seq<int>)

  datatype ItemsConfig = ItemsConfig(
    screwColours: seq<string>,
    saddleColours: seq<string>,
    boxTypes: seq<BoxTypeInfo>,
    meshColours: seq<string>,
    mesh4mm: MeshSizes,
    mesh2mm: MeshSizes)

  // ---------------------------------------------------------------------
  // Colours and ids
  // ---------------------------------------------------------------------

  /** `colour.lower().replace(' ', '_')`: the colour's part of an item id. */
  function Slug(colour: string): (s: string)
    ensures |s| == |colour|
    ensures forall i :: 0 <= i < |s| ==> s[i] == if colour[i] == ' ' then '_' else LowerChar(colour[i])
    ensures ' ' !in s
  {
    ReplaceChar(Lower(colour), ' ', '_')
  }

  lemma LexLeTotalPreorder()
    ensures TotalPreorder(LexLe)
  {
    forall a: string, b: string ensures LexLe(a, b) || LexLe(b, a) {
      LexLeTotal(a, b);
    }
    forall a: string, b: string, c: string | LexLe(a, b) && LexLe(b, c) ensures LexLe(a, c) {
      LexLeTransitive(a, b, c);
    }
  }

  /** `sorted(colours)`: the same colours, each as often, in string order. */
  function SortedColours(colours: seq<string>): (r: seq<string>)
    ensures multiset(r) == multiset(colours)
    ensures |r| == |colours|
    ensures forall i, j :: 0 <= i < j < |r| ==> LexLe(r[i], r[j])
  {
    LexLeTotalPreorder();
    SortBySorted(colours, LexLe);
    SortBy(colours, LexLe)
  }

  /** The head of a string-ordered list is at or below every element. */
  lemma SortedHead(a: seq<string>, x: string)
    requires forall i, j :: 0 <= i < j < |a| ==> LexLe(a[i], a[j])
    requires x in a
    ensures LexLe(a[0], x)
  {
    var i :| 0 <= i < |a| && a[i] == x;
    if i == 0 {
      LexLeTotal(x, x);
    }
  }

  lemma TailMultiset<T>(a: seq<T>, b: seq<T>)
    requires a != [] && b != [] && a[0] == b[0] && multiset(a) == multiset(b)
    ensures multiset(a[1..]) == multiset(b[1..])
  {
    assert a == [a[0]] + a[1..];
    assert b == [b[0]] + b[1..];
    calc {
      multiset(a[1..]);
      multiset(a) - multiset{a[0]};
      multiset(b) - multiset{b[0]};
      multiset(b[1..]);
    }
  }

  /** Sorting is unique: two string-ordered lists with the same elements are equal. */
  lemma {:induction false} SortedUnique(a: seq<string>, b: seq<string>)
    requires multiset(a) == multiset(b)
    requires forall i, j :: 0 <= i < j < |a| ==> LexLe(a[i], a[j])
    requires forall i, j :: 0 <= i < j < |b| ==> LexLe(b[i], b[j])
    ensures a == b
  {
    assert |a| == |multiset(a)| == |b|;
    if a != [] {
      assert a[0] in multiset(b);
      assert b[0] in multiset(a);
      SortedHead(a, b[0]);
      SortedHead(b, a[0]);
      LexLeAntisymmetric(a[0], b[0]);
      TailMultiset(a, b);
      SortedUnique(a[1..], b[1..]);
      assert a == [a[0]] + a[1..] && b == [b[0]] + b[1..];
    }
  }

  // ---------------------------------------------------------------------
  // One item per colour: screws, trims, corrugated and trimdek saddles
  // ---------------------------------------------------------------------

  function ColourItemFor(kind: ColourKind, colour: string): Item
  {
    ColourItem(kind.category, kind.typeName, colour, kind.unit, kind.boxSize, kind.idPrefix + Slug(colour))
  }

  /** The item list of one colour-based generator. */
  function ColourItems(kind: ColourKind, colours: seq<string>): seq<Item>
  {
    var cs := SortedColours(colours);
    seq(|cs|, i requires 0 <= i < |cs| => ColourItemFor(kind, cs[i]))
  }

  /**
   * Exactly one item per configured colour (counted with repeats), ordered by
   * colour, each of the generator's category with id prefix + slug.
   */
  lemma ColourItemsShape(kind: ColourKind, colours: seq<string>)
    ensures var r := ColourItems(kind, colours);
      && |r| == |colours|
      && multiset(seq(|r|, i requires 0 <= i < |r| => r[i].colour)) == multiset(colours)
      && (forall i, j :: 0 <= i < j < |r| ==> LexLe(r[i].colour, r[j].colour))
      && forall i :: 0 <= i < |r| ==>
           && r[i].ColourItem? && r[i].category == kind.category && r[i].unit == kind.unit
           && r[i].id == kind.idPrefix + Slug(r[i].colour)
  {
    var r := ColourItems(kind, colours);
    assert seq(|r|, i requires 0 <= i < |r| => r[i].colour) == SortedColours(colours);
  }

  /** `generate_screw_items` and its siblings: the loop over the sorted colours. */
  method GenerateColourItems(kind: ColourKind, colours: seq<string>) returns (items: seq<Item>)
    ensures items == ColourItems(kind, colours)
  {
    var cs := SortedColours(colours);
    items := [];
    for i := 0 to |cs|
      invariant |items| == i
      invariant forall j :: 0 <= j < i ==> items[j] == ColourItemFor(kind, cs[j])
    {
      items := items + [ColourItemFor(kind, cs[i])];
    }
  }

  // ---------------------------------------------------------------------
  // Boxes
  // ---------------------------------------------------------------------

  function BoxItemFor(b: BoxTypeInfo): Item
  {
    BoxItem("boxes", b.key, b.name, b.description, "boxes", b.packSize, "box_" + b.key)
  }

  function BoxItems(cfg: ItemsConfig): seq<Item>
  {
    seq(|cfg.boxTypes|, i requires 0 <= i < |cfg.boxTypes| => BoxItemFor(cfg.boxTypes[i]))
  }

  /** `generate_box_items`: one item per box type, in configuration order. */
  method GenerateBoxItems(cfg: ItemsConfig) returns (items: seq<Item>)
    ensures items == BoxItems(cfg)
    ensures |items| == |cfg.boxTypes|
    ensures forall i :: 0 <= i < |items| ==>
      && items[i].BoxItem? && items[i].category == "boxes" && ColourOf(items[i]).None?
      && items[i].boxType == cfg.boxTypes[i].key && items[i].id == "box_" + cfg.boxTypes[i].key
      && items[i].packSize == cfg.boxTypes[i].packSize
  {
    items := [];
    for i := 0 to |cfg.boxTypes|
      invariant |items| == i
      invariant forall j :: 0 <= j < i ==> items[j] == BoxItemFor(cfg.boxTypes[j])
    {
      items := items + [BoxItemFor(cfg.boxTypes[i])];
    }
  }

  // ---------------------------------------------------------------------
  // Mesh: colour-major, then width, then length
  // ---------------------------------------------------------------------

  function MeshItemFor(kind: MeshKind, colour: string, w: int, l: int): Item
  {
    MeshItem(kind.category, kind.meshType, kind.typeName, w, l, colour, "rolls",
             kind.idPrefix + IntToString(w) + "_" + IntToString(l) + "_" + Slug(colour))
  }

  /** The roll a generator makes for a colour, a width and a length. */
  function Maker(kind: MeshKind): (string, int, int) -> Item
  {
    (colour: string, w: int, l: int) => MeshItemFor(kind, colour, w, l)
  }

  /** The innermost loop: one roll per length, for one colour and width. */
  function LengthRow(mk: (string, int, int) -> Item, colour: string, w: int, ls: seq<int>): seq<Item>
  {
    seq(|ls|, p requires 0 <= p < |ls| => mk(colour, w, ls[p]))
  }

  function WidthRows(mk: (string, int, int) -> Item, colour: string, ws: seq<int>, ls: seq<int>): seq<seq<Item>>
  {
    seq(|ws|, j requires 0 <= j < |ws| => LengthRow(mk, colour, ws[j], ls))
  }

  /** The middle loop: every width's row, for one colour. */
  function WidthBlock(mk: (string, int, int) -> Item, colour: string, ws: seq<int>, ls: seq<int>): seq<Item>
  {
    Concat(WidthRows(mk, colour, ws, ls))
  }

  function ColourBlocks(mk: (string, int, int) -> Item, cs: seq<string>, ws: seq<int>, ls: seq<int>): seq<seq<Item>>
  {
    seq(|cs|, i requires 0 <= i < |cs| => WidthBlock(mk, cs[i], ws, ls))
  }

  function MeshGrid(mk: (string, int, int) -> Item, cs: seq<string>, ws: seq<int>, ls: seq<int>): seq<Item>
  {
    Concat(ColourBlocks(mk, cs, ws, ls))
  }

  /** The item list of one mesh generator, over the sorted colours. */
  function MeshItems(kind: MeshKind, colours: seq<string>, sizes: MeshSizes): seq<Item>
  {
    MeshGrid(Maker(kind), SortedColours(colours), sizes.widths, sizes.lengths)
  }

  lemma WidthBlockLength(mk: (string, int, int) -> Item, colour: string, ws: seq<int>, ls: seq<int>)
    ensures |WidthBlock(mk, colour, ws, ls)| == |ws| * |ls|
  {
    ConcatUniformLength(WidthRows(mk, colour, ws, ls), |ls|);
  }

  lemma {:induction false} ColourBlocksUniform(mk: (string, int, int) -> Item, cs: seq<string>, ws: seq<int>, ls: seq<int>)
    ensures forall i :: 0 <= i < |ColourBlocks(mk, cs, ws, ls)| ==> |ColourBlocks(mk, cs, ws, ls)[i]| == |ws| * |ls|
  {
    var blocks := ColourBlocks(mk, cs, ws, ls);
    forall i | 0 <= i < |blocks| ensures |blocks[i]| == |ws| * |ls| {
      WidthBlockLength(mk, cs[i], ws, ls);
    }
  }

  /** |colours| · |widths| · |lengths| items. */
  lemma MeshGridLength(mk: (string, int, int) -> Item, cs: seq<string>, ws: seq<int>, ls: seq<int>)
    ensures |MeshGrid(mk, cs, ws, ls)| == |cs| * (|ws| * |ls|)
  {
    ColourBlocksUniform(mk, cs, ws, ls);
    ConcatUniformLength(ColourBlocks(mk, cs, ws, ls), |ws| * |ls|);
  }

  /** Within one colour, the roll of width `ws[j]` and length `ls[p]` sits at j·|ls| + p. */
  lemma {:induction false} WidthBlockAt(mk: (string, int, int) -> Item, colour: string, ws: seq<int>, ls: seq<int>, j: nat, p: nat)
    requires j < |ws| && p < |ls|
    ensures |WidthBlock(mk, colour, ws, ls)| == |ws| * |ls|
    ensures j * |ls| + p < |ws| * |ls|
    ensures WidthBlock(mk, colour, ws, ls)[j * |ls| + p] == mk(colour, ws[j], ls[p])
  {
    ConcatUniformAt(WidthRows(mk, colour, ws, ls), |ls|, j, p);
  }

  /**
   * The roll of colour `cs[i]`, width `ws[j]` and length `ls[p]` sits at
   * i·(|ws|·|ls|) + (j·|ls| + p): colour-major, then width, then length.
   */
  lemma {:induction false} MeshGridAt(mk: (string, int, int) -> Item, cs: seq<string>, ws: seq<int>, ls: seq<int>, i: nat, j: nat, p: nat)
    requires i < |cs| && j < |ws| && p < |ls|
    ensures |MeshGrid(mk, cs, ws, ls)| == |cs| * (|ws| * |ls|)
    ensures i * (|ws| * |ls|) + (j * |ls| + p) < |cs| * (|ws| * |ls|)
    ensures MeshGrid(mk, cs, ws, ls)[i * (|ws| * |ls|) + (j * |ls| + p)] == mk(cs[i], ws[j], ls[p])
  {
    ColourBlocksUniform(mk, cs, ws, ls);
    WidthBlockAt(mk, cs[i], ws, ls, j, p);
    ConcatUniformAt(ColourBlocks(mk, cs, ws, ls), |ws| * |ls|, i, j * |ls| + p);
  }

  lemma LengthRowStep(mk: (string, int, int) -> Item, colour: string, w: int, ls: seq<int>, p: nat)
    requires p < |ls|
    ensures LengthRow(mk, colour, w, ls[..p + 1]) == LengthRow(mk, colour, w, ls[..p]) + [mk(colour, w, ls[p])]
  {
  }

  lemma WidthBlockStep(mk: (string, int, int) -> Item, colour: string, ws: seq<int>, ls: seq<int>, j: nat)
    requires j < |ws|
    ensures WidthBlock(mk, colour, ws[..j + 1], ls) == WidthBlock(mk, colour, ws[..j], ls) + LengthRow(mk, colour, ws[j], ls)
  {
    assert WidthRows(mk, colour, ws[..j + 1], ls) == WidthRows(mk, colour, ws[..j], ls) + [LengthRow(mk, colour, ws[j], ls)];
    ConcatSnoc(WidthRows(mk, colour, ws[..j], ls), LengthRow(mk, colour, ws[j], ls));
  }

  lemma MeshGridStep(mk: (string, int, int) -> Item, cs: seq<string>, ws: seq<int>, ls: seq<int>, i: nat)
    requires i < |cs|
    ensures MeshGrid(mk, cs[..i + 1], ws, ls) == MeshGrid(mk, cs[..i], ws, ls) + WidthBlock(mk, cs[i], ws, ls)
  {
    assert ColourBlocks(mk, cs[..i + 1], ws, ls) == ColourBlocks(mk, cs[..i], ws, ls) + [WidthBlock(mk, cs[i], ws, ls)];
    ConcatSnoc(ColourBlocks(mk, cs[..i], ws, ls), WidthBlock(mk, cs[i], ws, ls));
  }

  /** The innermost loop of the mesh generators: one roll per length, for one colour and width. */
  method AppendLengthRow(items0: seq<Item>, kind: MeshKind, colour: string, w: int, ls: seq<int>)
    returns (items: seq<Item>)
    ensures items == items0 + LengthRow(Maker(kind), colour, w, ls)
  {
    items := items0;
    for p := 0 to |ls|
      invariant items == items0 + LengthRow(Maker(kind), colour, w, ls[..p])
    {
      LengthRowStep(Maker(kind), colour, w, ls, p);
      var roll := MeshItemFor(kind, colour, w, ls[p]);
      assert roll == Maker(kind)(colour, w, ls[p]);
      items := items + [roll];
    }
    assert ls[..|ls|] == ls;
  }

  /** The middle loop of the mesh generators: every width's row, for one colour. */
  method AppendWidthBlock(items0: seq<Item>, kind: MeshKind, colour: string, ws: seq<int>, ls: seq<int>)
    returns (items: seq<Item>)
    ensures items == items0 + WidthBlock(Maker(kind), colour, ws, ls)
  {
    items := items0;
    for j := 0 to |ws|
      invariant items == items0 + WidthBlock(Maker(kind), colour, ws[..j], ls)
    {
      items := AppendLengthRow(items, kind, colour, ws[j], ls);
      WidthBlockStep(Maker(kind), colour, ws, ls, j);
    }
    assert ws[..|ws|] == ws;
  }

  /** `generate_mesh_4mm_items` / `generate_mesh_2mm_items`: colour by colour, width by width, length by length. */
  method GenerateMeshItems(kind: MeshKind, colours: seq<string>, sizes: MeshSizes) returns (items: seq<Item>)
    ensures items == MeshItems(kind, colours, sizes)
  {
    var cs := SortedColours(colours);
    var ws, ls := sizes.widths, sizes.lengths;
    items := [];
    for i := 0 to |cs|
      invariant items == MeshGrid(Maker(kind), cs[..i], ws, ls)
    {
      items := AppendWidthBlock(items, kind, cs[i], ws, ls);
      MeshGridStep(Maker(kind), cs, ws, ls, i);
    }
    assert cs[..|cs|] == cs;
  }

  /** What every item of a mesh generator looks like. */
  function MeshShaped(kind: MeshKind): Item -> bool
  {
    (x: Item) =>
      && x.MeshItem? && x.category == kind.category && x.meshType == kind.meshType && x.unit == "rolls"
      && x.id == kind.idPrefix + IntToString(x.widthMm) + "_" + IntToString(x.lengthM) + "_" + Slug(x.colour)
  }

  /** Every mesh item carries its generator's category and a size-and-colour id. */
  lemma MeshItemsShape(kind: MeshKind, colours: seq<string>, sizes: MeshSizes)
    ensures var r := MeshItems(kind, colours, sizes);
      && |r| == |colours| * (|sizes.widths| * |sizes.lengths|)
      && forall n :: 0 <= n < |r| ==> MeshShaped(kind)(r[n])
  {
    var cs, ws, ls := SortedColours(colours), sizes.widths, sizes.lengths;
    MeshGridLength(Maker(kind), cs, ws, ls);
    var blocks := ColourBlocks(Maker(kind), cs, ws, ls);
    forall i, k | 0 <= i < |blocks| && 0 <= k < |blocks[i]| ensures MeshShaped(kind)(blocks[i][k]) {
      ConcatAll(WidthRows(Maker(kind), cs[i], ws, ls), MeshShaped(kind));
    }
    ConcatAll(blocks, MeshShaped(kind));
  }

  // ---------------------------------------------------------------------
  // All categories
  // ---------------------------------------------------------------------

  /** The seven stocktake categories, in the fixed order items are generated. */
  datatype Category = Screws | Trims | CorrugatedSaddles | TrimdekSaddles | Boxes | Mesh4mm | Mesh2mm

  const AllCategories: seq<Category> := [Screws, Trims, CorrugatedSaddles, TrimdekSaddles, Boxes, Mesh4mm, Mesh2mm]

  function Name(c: Category): string
  {
    match c
    case Screws => "screws"
    case Trims => "trims"
    case CorrugatedSaddles => "corrugated_saddles"
    case TrimdekSaddles => "trimdek_saddles"
    case Boxes => "boxes"
    case Mesh4mm => "mesh_4mm"
    case Mesh2mm => "mesh_2mm"
  }

  /** The category a name stands for, if any. */
  function FromName(name: string): (r: Option<Category>)
    ensures r.Some? ==> Name(r.value) == name
  {
    if name == "screws" then Some(Screws)
    else if name == "trims" then Some(Trims)
    else if name == "corrugated_saddles" then Some(CorrugatedSaddles)
    else if name == "trimdek_saddles" then Some(TrimdekSaddles)
    else if name == "boxes" then Some(Boxes)
    else if name == "mesh_4mm" then Some(Mesh4mm)
    else if name == "mesh_2mm" then Some(Mesh2mm)
    else None
  }

  lemma FromNameName(c: Category)
    ensures FromName(Name(c)) == Some(c)
  {
  }

  /** `AllCategories` lists every category. */
  lemma AllListed()
    ensures forall c :: c in AllCategories
  {
    forall c ensures c in AllCategories {
      match c
      case Screws => assert AllCategories[0] == c;
      case Trims => assert AllCategories[1] == c;
      case CorrugatedSaddles => assert AllCategories[2] == c;
      case TrimdekSaddles => assert AllCategories[3] == c;
      case Boxes => assert AllCategories[4] == c;
      case Mesh4mm => assert AllCategories[5] == c;
      case Mesh2mm => assert AllCategories[6] == c;
    }
  }

  /** Distinct categories have distinct names. */
  lemma NamesDistinct()
    ensures forall c, d :: Name(c) == Name(d) ==> c == d
  {
    forall c, d | Name(c) == Name(d) ensures c == d {
      FromNameName(c);
      FromNameName(d);
    }
  }

  /** The output of the generator of category `c`. */
  function Generated(cfg: ItemsConfig, c: Category): seq<Item>
  {
    match c
    case Screws => ColourItems(ScrewKind, cfg.screwColours)
    case Trims => ColourItems(TrimKind, cfg.saddleColours)
    case CorrugatedSaddles => ColourItems(CorrugatedKind, cfg.saddleColours)
    case TrimdekSaddles => ColourItems(TrimdekKind, cfg.saddleColours)
    case Boxes => BoxItems(cfg)
    case Mesh4mm => MeshItems(Mesh4mmKind, cfg.meshColours, cfg.mesh4mm)
    case Mesh2mm => MeshItems(Mesh2mmKind, cfg.meshColours, cfg.mesh2mm)
  }

  /** A category is generated when no list is given, or when the list names it. */
  predicate Wanted(categories: Option<seq<string>>, c: Category)
  {
    categories.None? || Name(c) in categories.value
  }

  function Generators(cfg: ItemsConfig): Category -> seq<Item>
  {
    (c: Category) => Generated(cfg, c)
  }

  /** What `gen(c)` contributes to the combined list. */
  function Part(categories: Option<seq<string>>, gen: Category -> seq<Item>, c: Category): seq<Item>
  {
    if Wanted(categories, c) then gen(c) else []
  }

  /** The chosen parts of `ds`, one after another. */
  function PartsOf(categories: Option<seq<string>>, gen: Category -> seq<Item>, ds: seq<Category>): seq<Item>
  {
    if ds == [] then [] else PartsOf(categories, gen, ds[..|ds| - 1]) + Part(categories, gen, ds[|ds| - 1])
  }

  /**
   * `generate_all_items`: the chosen generators' lists, always in the fixed
   * order screws, trims, corrugated, trimdek, boxes, 4mm mesh, 2mm mesh.
   */
  function AllItems(cfg: ItemsConfig, categories: Option<seq<string>>): seq<Item>
  {
    PartsOf(categories, Generators(cfg), AllCategories)
  }

  /** Every item a generator makes is of that generator's category. */
  lemma GeneratedCategory(cfg: ItemsConfig, c: Category)
    ensures forall i :: 0 <= i < |Generated(cfg, c)| ==> Generated(cfg, c)[i].category == Name(c)
  {
    match c
    case Screws => ColourItemsShape(ScrewKind, cfg.screwColours);
    case Trims => ColourItemsShape(TrimKind, cfg.saddleColours);
    case CorrugatedSaddles => ColourItemsShape(CorrugatedKind, cfg.saddleColours);
    case TrimdekSaddles => ColourItemsShape(TrimdekKind, cfg.saddleColours);
    case Boxes =>
    case Mesh4mm => MeshItemsShape(Mesh4mmKind, cfg.meshColours, cfg.mesh4mm);
    case Mesh2mm => MeshItemsShape(Mesh2mmKind, cfg.meshColours, cfg.mesh2mm);
  }

  function InCategory(c: Category): Item -> bool
  {
    (it: Item) => it.category == Name(c)
  }

  /** Every list `gen` makes holds only items of its own category. */
  ghost predicate Labelled(gen: Category -> seq<Item>)
  {
    forall d, i :: 0 <= i < |gen(d)| ==> gen(d)[i].category == Name(d)
  }

  lemma GeneratorsLabelled(cfg: ItemsConfig)
    ensures Labelled(Generators(cfg))
  {
    forall d ensures forall i :: 0 <= i < |Generators(cfg)(d)| ==> Generators(cfg)(d)[i].category == Name(d) {
      GeneratedCategory(cfg, d);
    }
  }

  lemma PartFilter(categories: Option<seq<string>>, gen: Category -> seq<Item>, d: Category, c: Category)
    requires Labelled(gen)
    ensures Filter(Part(categories, gen, d), InCategory(c)) == if d == c then Part(categories, gen, d) else []
  {
    NamesDistinct();
    var s := Part(categories, gen, d);
    if d == c {
      FilterAll(s, InCategory(c));
    } else {
      FilterNone(s, InCategory(c));
    }
  }

  /** Over a list of distinct categories, filtering by `c` leaves `c`'s part, or nothing when `c` is not listed. */
  lemma {:induction false} PartsOfByCategory(categories: Option<seq<string>>, gen: Category -> seq<Item>,
                                             ds: seq<Category>, c: Category)
    requires Labelled(gen)
    requires forall i, j :: 0 <= i < j < |ds| ==> ds[i] != ds[j]
    ensures Filter(PartsOf(categories, gen, ds), InCategory(c)) == if c in ds then Part(categories, gen, c) else []
  {
    if ds != [] {
      var init, d := ds[..|ds| - 1], ds[|ds| - 1];
      var p := InCategory(c);
      PartsOfByCategory(categories, gen, init, c);
      FilterAppend(PartsOf(categories, gen, init), Part(categories, gen, d), p);
      PartFilter(categories, gen, d, c);
      assert Filter(PartsOf(categories, gen, ds), p)
          == Filter(PartsOf(categories, gen, init), p) + Filter(Part(categories, gen, d), p);
      if c == d {
        assert c !in init by {
          forall i | 0 <= i < |init| ensures init[i] != c {
            assert init[i] == ds[i];
          }
        }
      } else {
        assert c in ds <==> c in init by {
          assert ds == init + [d];
        }
      }
    }
  }

  /**
   * The items of category `c` in the combined list are exactly that
   * generator's output when `c` is chosen, and nothing otherwise: the order
   * and repeats of the category list do not matter, and no list means all.
   */
  lemma AllItemsByCategory(cfg: ItemsConfig, categories: Option<seq<string>>, c: Category)
    ensures Filter(AllItems(cfg, categories), InCategory(c)) == if Wanted(categories, c) then Generated(cfg, c) else []
  {
    GeneratorsLabelled(cfg);
    PartsOfByCategory(categories, Generators(cfg), AllCategories, c);
  }

  /** The number of items category `c`'s generator makes. */
  function Count(cfg: ItemsConfig): Category -> int
  {
    (c: Category) => |Generated(cfg, c)|
  }

  /** A dictionary keyed by category name, holding `f` of each category. */
  function ByName(f: Category -> int): (m: map<string, int>)
    ensures forall c: Category :: Name(c) in m && m[Name(c)] == f(c)
    ensures forall k :: k in m ==> FromName(k).Some?
  {
    NamesDistinct();
    AllListed();
    var m := map c: Category | c in AllCategories :: Name(c) := f(c);
    assert forall k :: k in m ==> exists c :: c in AllCategories && Name(c) == k;
    forall c ensures FromName(Name(c)).Some? {
      FromNameName(c);
    }
    m
  }

  /** `get_category_counts`: each category name mapped to the length of its generator's list. */
  function CategoryCounts(cfg: ItemsConfig): (m: map<string, int>)
    ensures forall c: Category :: Name(c) in m && m[Name(c)] == Count(cfg)(c)
    ensures forall k :: k in m ==> FromName(k).Some?
  {
    ByName(Count(cfg))
  }

  /** The counts in terms of the configuration alone. */
  lemma CountValue(cfg: ItemsConfig, c: Category)
    ensures Count(cfg)(c) == match c
      case Screws => |cfg.screwColours|
      case Trims | CorrugatedSaddles | TrimdekSaddles => |cfg.saddleColours|
      case Boxes => |cfg.boxTypes|
      case Mesh4mm => |cfg.meshColours| * (|cfg.mesh4mm.widths| * |cfg.mesh4mm.lengths|)
      case Mesh2mm => |cfg.meshColours| * (|cfg.mesh2mm.widths| * |cfg.mesh2mm.lengths|)
  {
    match c
    case Mesh4mm => MeshItemsShape(Mesh4mmKind, cfg.meshColours, cfg.mesh4mm);
    case Mesh2mm => MeshItemsShape(Mesh2mmKind, cfg.meshColours, cfg.mesh2mm);
    case _ =>
  }

  /** With every category chosen, the counts add up to the length of the full list. */
  lemma {:induction false} PartsOfLength(cfg: ItemsConfig, ds: seq<Category>)
    ensures |PartsOf(None, Generators(cfg), ds)| == SumInt(ds, Count(cfg))
  {
    if ds != [] {
      PartsOfLength(cfg, ds[..|ds| - 1]);
    }
  }

  lemma AllItemsLength(cfg: ItemsConfig)
    ensures |AllItems(cfg, None)| == SumInt(AllCategories, Count(cfg))
  {
    PartsOfLength(cfg, AllCategories);
  }
}
