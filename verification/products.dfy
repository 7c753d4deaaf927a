/**
 * The product record of a menu (structs.go: Product, Fai, SideDish) and the
 * tolerant decoder of the "pr" field, which the vendor sends either as an
 * array of products or as a single product object (Products.UnmarshalJSON).
 */
module Products {
  import opened Results
  import opened Json
  import Fields

  /** One choice of a side dish (the anonymous element type of SideDish.Cc.Ch). */
  datatype Choice = Choice(id: string, name: string, pickupCost: string, deliveryCost: string, xfm: int)

  /** A side dish; `choices` stands for the list Cc.Ch, the only field of the Cc wrapper. */
  datatype SideDish = SideDish(name: string, choices: seq<Choice>, tp: string)

  /** Product attributes whose fields arrive in more than one shape. */
  datatype Fai = Fai(all: seq<string>, add: seq<string>, xtr: map<string, string>, nut: string)

  /** A product; `sideDishes` stands for SideItems.SideDishes, the only field of that wrapper. */
  datatype Product = Product(
    id: string, name: string, description: string, ah: string,
    pickupCost: string, deliveryCost: string, pu: string, cloudinaryProduct: string,
    xfm: int, fai: Fai, sideDishes: seq<SideDish>)

  const ZeroChoice := Choice("", "", "", "", 0)
  const ZeroSideDish := SideDish("", [], "")
  const ZeroFai := Fai([], [], map[], "")
  const ZeroProduct := Product("", "", "", "", "", "", "", "", 0, ZeroFai, [])

  function ApplyChoiceMember(c: Choice, m: Member): Result<Choice, DecodeError> {
    if KeyMatches(m.key, "id") then
      (match DecodeStringInto(c.id, m.value) case Ok(s) => Ok(c.(id := s)) case Err(e) => Err(e))
    else if KeyMatches(m.key, "nm") then
      (match DecodeStringInto(c.name, m.value) case Ok(s) => Ok(c.(name := s)) case Err(e) => Err(e))
    else if KeyMatches(m.key, "pc") then
      (match DecodeStringInto(c.pickupCost, m.value) case Ok(s) => Ok(c.(pickupCost := s)) case Err(e) => Err(e))
    else if KeyMatches(m.key, "tc") then
      (match DecodeStringInto(c.deliveryCost, m.value) case Ok(s) => Ok(c.(deliveryCost := s)) case Err(e) => Err(e))
    else if KeyMatches(m.key, "xfm") then
      (match DecodeIntInto(c.xfm, m.value) case Ok(n) => Ok(c.(xfm := n)) case Err(e) => Err(e))
    else Ok(c)
  }

  function DecodeChoice(v: Json): Result<Choice, DecodeError> {
    DecodeStructInto(ZeroChoice, v, "Choice", ApplyChoiceMember)
  }

  /** A JSON value stored into a fresh []Choice. */
  function DecodeChoiceList(v: Json): Result<seq<Choice>, DecodeError> {
    match v
    case JNull => Ok([])
    case JArray(items) => DecodeEach(items, DecodeChoice)
    case _ => Err(TypeMismatch("[]Choice", v))
  }

  /** Stores one member of the Cc wrapper, whose only field is "ch". */
  function ApplyCcMember(choices: seq<Choice>, m: Member): Result<seq<Choice>, DecodeError> {
    if KeyMatches(m.key, "ch") then DecodeChoiceList(m.value) else Ok(choices)
  }

  function ApplySideDishMember(d: SideDish, m: Member): Result<SideDish, DecodeError> {
    if KeyMatches(m.key, "nm") then
      (match DecodeStringInto(d.name, m.value) case Ok(s) => Ok(d.(name := s)) case Err(e) => Err(e))
    else if KeyMatches(m.key, "cc") then
      (match DecodeStructInto(d.choices, m.value, "Cc", ApplyCcMember) case Ok(cs) => Ok(d.(choices := cs)) case Err(e) => Err(e))
    else if KeyMatches(m.key, "tp") then
      (match DecodeStringInto(d.tp, m.value) case Ok(s) => Ok(d.(tp := s)) case Err(e) => Err(e))
    else Ok(d)
  }

  function DecodeSideDish(v: Json): Result<SideDish, DecodeError> {
    DecodeStructInto(ZeroSideDish, v, "SideDish", ApplySideDishMember)
  }

  function DecodeSideDishList(v: Json): Result<seq<SideDish>, DecodeError> {
    match v
    case JNull => Ok([])
    case JArray(items) => DecodeEach(items, DecodeSideDish)
    case _ => Err(TypeMismatch("[]SideDish", v))
  }

  /** Stores one member of the SideItems wrapper, whose only field is "sd". */
  function ApplySideItemsMember(dishes: seq<SideDish>, m: Member): Result<seq<SideDish>, DecodeError> {
    if KeyMatches(m.key, "sd") then DecodeSideDishList(m.value) else Ok(dishes)
  }

  function ApplyFaiMember(f: Fai, m: Member): Result<Fai, DecodeError> {
    if KeyMatches(m.key, "all") then
      (match Fields.DecodeAll(m.value) case Ok(a) => Ok(f.(all := a)) case Err(e) => Err(e))
    else if KeyMatches(m.key, "add") then
      (match Fields.DecodeAdd(m.value) case Ok(a) => Ok(f.(add := a)) case Err(e) => Err(e))
    else if KeyMatches(m.key, "xtr") then
      (match Fields.DecodeXtr(m.value) case Ok(x) => Ok(f.(xtr := x)) case Err(e) => Err(e))
    else if KeyMatches(m.key, "nut") then
      (match DecodeStringInto(f.nut, m.value) case Ok(s) => Ok(f.(nut := s)) case Err(e) => Err(e))
    else Ok(f)
  }

  function ApplyProductMember(p: Product, m: Member): Result<Product, DecodeError> {
    if KeyMatches(m.key, "id") then
      (match DecodeStringInto(p.id, m.value) case Ok(s) => Ok(p.(id := s)) case Err(e) => Err(e))
    else if KeyMatches(m.key, "nm") then
      (match DecodeStringInto(p.name, m.value) case Ok(s) => Ok(p.(name := s)) case Err(e) => Err(e))
    else if KeyMatches(m.key, "ds") then
      (match DecodeStringInto(p.description, m.value) case Ok(s) => Ok(p.(description := s)) case Err(e) => Err(e))
    else if KeyMatches(m.key, "ah") then
      (match DecodeStringInto(p.ah, m.value) case Ok(s) => Ok(p.(ah := s)) case Err(e) => Err(e))
    else if KeyMatches(m.key, "pc") then
      (match DecodeStringInto(p.pickupCost, m.value) case Ok(s) => Ok(p.(pickupCost := s)) case Err(e) => Err(e))
    else if KeyMatches(m.key, "tc") then
      (match DecodeStringInto(p.deliveryCost, m.value) case Ok(s) => Ok(p.(deliveryCost := s)) case Err(e) => Err(e))
    else if KeyMatches(m.key, "pu") then
      (match DecodeStringInto(p.pu, m.value) case Ok(s) => Ok(p.(pu := s)) case Err(e) => Err(e))
    else if KeyMatches(m.key, "cloudinaryProduct") then
      (match DecodeStringInto(p.cloudinaryProduct, m.value) case Ok(s) => Ok(p.(cloudinaryProduct := s)) case Err(e) => Err(e))
    else if KeyMatches(m.key, "xfm") then
      (match DecodeIntInto(p.xfm, m.value) case Ok(n) => Ok(p.(xfm := n)) case Err(e) => Err(e))
    else if KeyMatches(m.key, "fai") then
      (match DecodeStructInto(p.fai, m.value, "Fai", ApplyFaiMember) case Ok(f) => Ok(p.(fai := f)) case Err(e) => Err(e))
    else if KeyMatches(m.key, "ss") then
      (match DecodeStructInto(p.sideDishes, m.value, "SideItems", ApplySideItemsMember)
       case Ok(ds) => Ok(p.(sideDishes := ds)) case Err(e) => Err(e))
    else Ok(p)
  }

  /** A JSON value stored into a fresh Product. */
  function DecodeProduct(v: Json): (r: Result<Product, DecodeError>)
    ensures v.JNull? ==> r == Ok(ZeroProduct)
    ensures v.JArray? || IsScalar(v) ==> r.Err?
  {
    DecodeStructInto(ZeroProduct, v, "Product", ApplyProductMember)
  }

  /** A JSON value stored into a fresh []Product. */
  function DecodeProductList(v: Json): (r: Result<seq<Product>, DecodeError>)
    ensures v.JNull? ==> r == Ok([])
    ensures v.JArray? ==> r == DecodeEach(v.items, DecodeProduct)
    ensures v.JObject? || IsScalar(v) ==> r.Err?
  {
    match v
    case JNull => Ok([])
    case JArray(items) => DecodeEach(items, DecodeProduct)
    case _ => Err(TypeMismatch("[]Product", v))
  }

  /**
   * Products.UnmarshalJSON: an array of products first, then a single product
   * object wrapped into a one-element list, otherwise fail quoting the raw
   * value.
   */
  function DecodeProducts(v: Json): (r: Result<seq<Product>, DecodeError>)
    ensures v.JNull? ==> r == Ok([])
    ensures v.JArray? ==> (r.Ok? <==> forall i :: 0 <= i < |v.items| ==> DecodeProduct(v.items[i]).Ok?)
    ensures v.JArray? && r.Ok? ==> |r.value| == |v.items|
                                   && forall i :: 0 <= i < |v.items| ==> r.value[i] == DecodeProduct(v.items[i]).value
    ensures v.JObject? ==> (r.Ok? <==> DecodeProduct(v).Ok?)
    ensures v.JObject? && r.Ok? ==> r.value == [DecodeProduct(v).value]
    ensures IsScalar(v) ==> r == Err(Rejected("pr", v))
    ensures r.Err? ==> r.error == Rejected("pr", v)
  {
    match DecodeProductList(v)
    case Ok(products) => Ok(products)
    case Err(_) =>
      match DecodeProduct(v)
      case Ok(single) => Ok([single])
      case Err(_) => Err(Rejected("pr", v))
  }

  /**
   * The two wire forms of one product, `[{...}]` and `{...}`, are accepted or
   * refused together and give the same one-element list.
   */
  lemma ArrayOfOneMatchesObject(o: Json)
    requires o.JObject?
    ensures DecodeProducts(JArray([o])).Ok? <==> DecodeProducts(o).Ok?
    ensures DecodeProducts(JArray([o])).Ok? ==> DecodeProducts(JArray([o])).value == DecodeProducts(o).value
  {
    var viaArray := DecodeProducts(JArray([o]));
    if viaArray.Ok? {
      assert viaArray.value == [DecodeProduct(o).value];
    }
  }

  /** A product object whose only member is `"id": "1"`, in either wire form. */
  lemma IdOnlyProduct()
    ensures DecodeProducts(JObject([Member("id", JString("1"))])) == Ok([ZeroProduct.(id := "1")])
    ensures DecodeProducts(JArray([JObject([Member("id", JString("1"))])])) == Ok([ZeroProduct.(id := "1")])
  {
    var o := JObject([Member("id", JString("1"))]);
    assert KeyMatches("id", "id");
    assert FoldMembers(ZeroProduct, o.members, ApplyProductMember) == Ok(ZeroProduct.(id := "1")) by {
      assert o.members[..0] == [];
    }
    ArrayOfOneMatchesObject(o);
  }

  /** An upper-case key still selects the field: "ID" is stored into the id field. */
  lemma FieldMatchIgnoresCase()
    ensures DecodeProduct(JObject([Member("ID", JString("7"))])) == Ok(ZeroProduct.(id := "7"))
  {
    var ms := [Member("ID", JString("7"))];
    assert KeyMatches("ID", "id");
    assert ms[..0] == [];
  }
}
