/** The `make_*` constructors: each drives one builder through a fixed
    sequence of calls and returns the built document. A constructor that
    captures `locals()` receives its arguments as that dict: the parameter
    names in declaration order, each bound to the value passed. */
module Functions {
  import opened Wrappers
  import opened Json
  import opened Dicts
  import opened Builder

  /** The value bound to a parameter. Every constructor binds all of its
      parameters, so the `None` fallback is never taken. */
  function Arg(args: Dict<Value>, name: string): Value
  {
    if name in Keys(args) then Get(args, name).value else Null
  }

  /** The document's `id`: set by `set_id` unless the argument is `None`. */
  function IdOf(v: Value): Option<Value>
  {
    if v == Null then None else Some(v)
  }

  function One(relationshipType: string, id: Value): Linkage
  {
    ToOne(ResourceRef(relationshipType, id))
  }

  /** The link an optional `set_relationship` adds: none when the id is `None`. */
  function OptLink(name: string, relationshipType: string, id: Value): (r: Dict<Linkage>)
    ensures id == Null <==> r == []
    ensures r != [] ==> Keys(r) == [name] && r[0].1 == One(relationshipType, id)
  {
    if id == Null then [] else [(name, One(relationshipType, id))]
  }

  /** `builder.set_relationship(name, relationshipType, id)` for a name not
      linked yet: the link goes to the end. */
  method Link(b: Builder, name: string, relationshipType: string, id: Value)
    requires b.Valid() && name !in Keys(OrEmpty(b.relationships))
    modifies b
    ensures b.Valid()
    ensures b.relationships == Some(OrEmpty(old(b.relationships)) + [(name, One(relationshipType, id))])
    ensures b.id == old(b.id) && b.attributes == old(b.attributes)
  {
    PutFresh(OrEmpty(b.relationships), name, One(relationshipType, id));
    b.SetRelationship(name, relationshipType, id);
  }

  /** `builder.set_relationship_from_list(name, relationshipType, ids)` for a
      name not linked yet: the link goes to the end. */
  method LinkList(b: Builder, name: string, relationshipType: string, ids: seq<Value>)
    requires b.Valid() && name !in Keys(OrEmpty(b.relationships))
    modifies b
    ensures b.Valid()
    ensures b.relationships == Some(OrEmpty(old(b.relationships)) + [(name, ToMany(Refs(relationshipType, ids)))])
    ensures b.id == old(b.id) && b.attributes == old(b.attributes)
  {
    PutFresh(OrEmpty(b.relationships), name, ToMany(Refs(relationshipType, ids)));
    b.SetRelationshipFromList(name, relationshipType, ids);
  }

  /** `if id is not None: builder.set_relationship(name, relationshipType, id)`
      for a name not linked yet: the link, if any, goes to the end. */
  method LinkIfGiven(b: Builder, name: string, relationshipType: string, id: Value)
    requires b.Valid() && b.relationships.Some? && name !in Keys(b.relationships.value)
    modifies b
    ensures b.Valid()
    ensures b.relationships == Some(old(b.relationships.value) + OptLink(name, relationshipType, id))
    ensures b.id == old(b.id) && b.attributes == old(b.attributes)
  {
    if id != Null {
      Link(b, name, relationshipType, id);
    } else {
      assert b.relationships.value + [] == b.relationships.value;
    }
  }

  /** `builder.set_all_attributes(locals(), skip)` on a builder with no
      attributes yet: the attributes become the dict less the skipped keys. */
  method SetAll(b: Builder, args: Dict<Value>, skip: seq<string>)
    requires b.Valid() && b.attributes == [] && IsDict(args)
    modifies b
    ensures b.Valid() && b.attributes == Without(args, skip)
    ensures b.id == old(b.id) && b.relationships == old(b.relationships)
  {
    WithoutFacts(args, skip, []);
    b.SetAllAttributes(args, Some(skip));
  }

  /** `builder.set_all_attributes(entries)` with no skip list, on a builder
      with no attributes yet: the attributes become the entries. */
  method SetEntries(b: Builder, entries: Dict<Value>)
    requires b.Valid() && b.attributes == [] && IsDict(entries)
    modifies b
    ensures b.Valid() && b.attributes == entries
    ensures b.id == old(b.id) && b.relationships == old(b.relationships)
  {
    WithoutFacts(entries, [], []);
    WithoutNothing(entries);
    b.SetAllAttributes(entries, None);
  }

  // make_product

  const ProductParams: seq<string> := [
    "name", "slug", "category_ids", "tax_class_id", "manufacturer_id", "product_id", "description",
    "meta_title", "meta_description", "meta_keywords", "viewed_count", "price", "cost", "image",
    "image2", "image3", "image4", "image5", "image6", "image7", "image8", "quantity", "sku", "status",
    "weight", "location", "country_of_origin", "button_type", "ean", "ordered_count", "manufacturer_sku",
    "notes", "created_at", "updated_at", "sort"]

  const ProductSkip: seq<string> := ["product_id", "category_ids", "tax_class_id", "manufacturer_id"]

  lemma ProductMandatoryNotSkipped()
    ensures forall k :: k in ProductBuilder.mandatoryAttributes.value ==> k !in ProductSkip
  {
  }

  /** `locals()` of `make_product` holds the mandatory attributes. */
  lemma ProductLocals(args: Dict<Value>)
    requires KeysAre(args, ProductParams)
    ensures forall k :: k in ProductBuilder.mandatoryAttributes.value ==> k in Keys(args)
  {
    KeysAreKeys(args, ProductParams);
    assert args[0].0 == "name" && args[1].0 == "slug";
  }

  /** `make_product`: every parameter but the four ids becomes an attribute
      (`None` included); `categories` lists the category ids in order; the
      tax class and manufacturer links exist exactly when their ids are given. */
  method MakeProduct(args: Dict<Value>) returns (r: Result<Document, BuildError>)
    requires IsDict(args)
    requires forall k :: k in ProductBuilder.mandatoryAttributes.value ==> k in Keys(args)
    requires Arg(args, "category_ids").Arr?
    ensures r.Success?
    ensures r.value.resourceType == "products"
    ensures r.value.attributes == Without(args, ProductSkip)
    ensures r.value.id == IdOf(Arg(args, "product_id"))
    ensures r.value.relationships == Some(
      [("categories", ToMany(Refs("categories", Arg(args, "category_ids").items)))]
      + OptLink("tax-class", "tax-classes", Arg(args, "tax_class_id"))
      + OptLink("manufacturer", "manufacturers", Arg(args, "manufacturer_id")))
  {
    var categoryIds := Arg(args, "category_ids").items;
    var product := new Builder.FromSpec(ProductBuilder);
    SetAll(product, args, ProductSkip);
    LinkList(product, "categories", "categories", categoryIds);
    ghost var categories := ("categories", ToMany(Refs("categories", categoryIds)));
    assert [] + [categories] == [categories];
    product.SetId(Arg(args, "product_id"));
    LinkTaxClassAndManufacturer(product, Arg(args, "tax_class_id"), Arg(args, "manufacturer_id"));
    ProductComplete(args, product.relationships.value);
    r := product.Build();
  }

  /** The two optional links of `make_product`, after `categories`. */
  method LinkTaxClassAndManufacturer(product: Builder, taxClassId: Value, manufacturerId: Value)
    requires product.Valid() && product.relationships.Some? && |product.relationships.value| == 1
    requires product.relationships.value[0].0 == "categories"
    modifies product
    ensures product.Valid()
    ensures product.relationships == Some(old(product.relationships.value)
      + OptLink("tax-class", "tax-classes", taxClassId)
      + OptLink("manufacturer", "manufacturers", manufacturerId))
    ensures product.id == old(product.id) && product.attributes == old(product.attributes)
  {
    ghost var categories := product.relationships.value[0];
    assert product.relationships.value == [categories];
    LinkIfGiven(product, "tax-class", "tax-classes", taxClassId);
    ghost var links := [categories] + OptLink("tax-class", "tax-classes", taxClassId);
    assert "manufacturer" !in Keys(links) by {
      KeysAppend([categories], ("tax-class", One("tax-classes", taxClassId)));
    }
    LinkIfGiven(product, "manufacturer", "manufacturers", manufacturerId);
  }

  /** A product with its mandatory attributes and `categories` linked first
      passes the mandatory check. */
  lemma ProductComplete(args: Dict<Value>, links: Dict<Linkage>)
    requires forall k :: k in ProductBuilder.mandatoryAttributes.value ==> k in Keys(args)
    requires links != [] && links[0].0 == "categories"
    ensures MandatoryFailure(ProductBuilder.mandatoryAttributes, ProductBuilder.mandatoryRelationships,
                             Without(args, ProductSkip), Some(links)).None?
  {
    ProductMandatoryNotSkipped();
    assert Keys(links)[0] == "categories";
  }

  // make_category

  const CategoryParams: seq<string> := [
    "name", "slug", "category_id", "image", "status", "created_at", "updated_at", "sort",
    "description", "meta_title", "meta_description", "parent"]

  const CategorySkip: seq<string> := ["category_id", "parent"]

  lemma CategoryMandatoryNotSkipped()
    ensures forall k :: k in CategoryBuilder.mandatoryAttributes.value ==> k !in CategorySkip
  {
  }

  /** `locals()` of `make_category` holds the mandatory attributes. */
  lemma CategoryLocals(args: Dict<Value>)
    requires KeysAre(args, CategoryParams)
    ensures forall k :: k in CategoryBuilder.mandatoryAttributes.value ==> k in Keys(args)
  {
    KeysAreKeys(args, CategoryParams);
    assert args[0].0 == "name" && args[1].0 == "slug";
  }

  /** `make_category`: every parameter but the id and the parent becomes an
      attribute; the `parent` link exists exactly when a parent is given. */
  method MakeCategory(args: Dict<Value>) returns (r: Result<Document, BuildError>)
    requires IsDict(args)
    requires forall k :: k in CategoryBuilder.mandatoryAttributes.value ==> k in Keys(args)
    ensures r.Success?
    ensures r.value.resourceType == "categories"
    ensures r.value.attributes == Without(args, CategorySkip)
    ensures r.value.id == IdOf(Arg(args, "category_id"))
    ensures r.value.relationships ==
      if Arg(args, "parent") == Null then None else Some([("parent", One("categories", Arg(args, "parent")))])
  {
    var parent := Arg(args, "parent");
    var category := new Builder.FromSpec(CategoryBuilder);
    SetAll(category, args, CategorySkip);
    category.SetId(Arg(args, "category_id"));
    if parent != Null {
      Link(category, "parent", "categories", parent);
      assert [] + [("parent", One("categories", parent))] == [("parent", One("categories", parent))];
    }
    CategoryComplete(args, category.relationships);
    r := category.Build();
  }

  lemma CategoryComplete(args: Dict<Value>, relationships: Option<Dict<Linkage>>)
    requires forall k :: k in CategoryBuilder.mandatoryAttributes.value ==> k in Keys(args)
    ensures MandatoryFailure(CategoryBuilder.mandatoryAttributes, CategoryBuilder.mandatoryRelationships,
                             Without(args, CategorySkip), relationships).None?
  {
    CategoryMandatoryNotSkipped();
  }

  // make_customer

  const CustomerParams: seq<string> := [
    "name", "lastname", "email", "address_address", "address_zipcode", "address_city", "address_country",
    "customer_id", "gender", "phone", "fax", "newsletter", "billing_email", "dob", "last_login",
    "created_at", "updated_at", "address_name", "address_lastname", "address_company",
    "address_company_co", "address_company_number", "address_region", "address_state",
    "billing_address_name", "billing_address_lastname", "billing_address_company",
    "billing_address_company_co", "billing_address_company_number", "billing_address_address",
    "billing_address_region", "billing_address_state", "billing_address_zipcode", "billing_address_city",
    "billing_address_country"]

  /** The attributes of a built customer: all parameters, back-filled, then
      converted to str. */
  function CustomerAttributes(args: Dict<Value>): Dict<Value>
  {
    StringifyAll(BackFill(args, Replacements).attributes)
  }

  /** What the back-fill leaves under `k`, before the conversion to str. */
  function BackFilled(args: Dict<Value>, k: string): Option<Value>
  {
    match SourceFor(Replacements, k)
    case None => Get(args, k)
    case Some(s) => if Get(args, k) == Some(Null) then Get(args, s) else Get(args, k)
  }

  /** Every name of the back-fill table, every mandatory name and
      `customer_id` are parameters of `make_customer`. */
  lemma CustomerParamsCover()
    ensures forall i :: 0 <= i < |Replacements| ==>
      Replacements[i].0 in CustomerParams && Replacements[i].1 in CustomerParams
    ensures forall k :: k in CustomerBuilder.mandatoryAttributes.value ==> k in CustomerParams
    ensures "customer_id" in CustomerParams
  {
  }

  lemma CustomerLocals(args: Dict<Value>)
    requires IsDict(args)
    requires KeysAre(args, CustomerParams)
    ensures PutAll([], Without(args, [])) == args
    ensures BackFill(args, Replacements).error.None?
    ensures IsDict(BackFill(args, Replacements).attributes)
    ensures forall k :: k in CustomerBuilder.mandatoryAttributes.value ==> k in Keys(CustomerAttributes(args))
    ensures "customer_id" in Keys(args)
  {
    KeysAreKeys(args, CustomerParams);
    CustomerParamsCover();
    BackFillSucceeds(args, Replacements);
    BackFillKeys(args, Replacements);
    StringifyAllGet(BackFill(args, Replacements).attributes, "");
    WithoutNothing(args);
    WithoutFacts(args, [], []);
  }

  /** `make_customer`: every parameter, `customer_id` included, is an
      attribute; the back-fill never raises, because every target and source
      is a parameter; the top-level id keeps the value passed. */
  method MakeCustomer(args: Dict<Value>) returns (r: Result<Document, BuildError>)
    requires IsDict(args)
    requires KeysAre(args, CustomerParams)
    ensures r == Success(Document("customers", IdOf(Arg(args, "customer_id")), CustomerAttributes(args), None))
  {
    CustomerLocals(args);
    var customer := new Builder.FromSpec(CustomerBuilder);
    customer.SetAllAttributes(args, None);
    var failure := customer.ValidateCustomer();
    customer.SetId(Arg(args, "customer_id"));
    assert MandatoryFailure(customer.mandatoryAttributes, customer.mandatoryRelationships,
                            customer.attributes, customer.relationships).None?;
    r := customer.Build();
  }

  /** Each attribute of a built customer is its argument after the back-fill,
      converted to str unless it is a str or `None`. */
  lemma CustomerAttributesGet(args: Dict<Value>, k: string)
    requires IsDict(args)
    requires KeysAre(args, CustomerParams)
    ensures Get(CustomerAttributes(args), k) ==
      if BackFilled(args, k).Some? then Some(Stringify(BackFilled(args, k).value)) else None
  {
    CustomerLocals(args);
    ReplacementsWellFormed();
    BackFillGet(args, Replacements, k);
    StringifyAllGet(BackFill(args, Replacements).attributes, k);
  }

  lemma CustomerIdNotTarget()
    ensures SourceFor(Replacements, "customer_id").None?
  {
    assert forall i :: 0 <= i < |Replacements| ==> Replacements[i].0 == ReplacementTargets[i];
    assert "customer_id" !in ReplacementTargets;
    SourceForAbsent(Replacements, "customer_id");
  }

  /** `customer_id` is also an attribute, in its str form. */
  lemma CustomerIdAttribute(args: Dict<Value>)
    requires IsDict(args)
    requires KeysAre(args, CustomerParams)
    ensures Get(CustomerAttributes(args), "customer_id") == Some(Stringify(Arg(args, "customer_id")))
  {
    CustomerLocals(args);
    CustomerIdNotTarget();
    CustomerAttributesGet(args, "customer_id");
  }

  /** The back-fill table fills the billing address from the main address. */
  lemma BillingAddressSource()
    ensures SourceFor(Replacements, "billing_address_address") == Some("address_address")
  {
    var tail := Replacements[7..];
    assert tail[0] == ("billing_address_address", "address_address");
    var k := 0;
    while k < 7
      invariant 0 <= k <= 7
      invariant SourceFor(Replacements, "billing_address_address") == SourceFor(Replacements[k..], "billing_address_address")
    {
      assert Replacements[k..][1..] == Replacements[k + 1..];
      k := k + 1;
    }
  }

  /** Both addresses are parameters of `make_customer`. */
  lemma BillingAddressParams()
    ensures "billing_address_address" in CustomerParams && "address_address" in CustomerParams
  {
    assert CustomerParams[29] == "billing_address_address" && CustomerParams[3] == "address_address";
  }

  /** A billing address left `None` is the main address. */
  lemma CustomerBillingAddress(args: Dict<Value>)
    requires IsDict(args)
    requires KeysAre(args, CustomerParams)
    requires Arg(args, "billing_address_address") == Null
    ensures Get(CustomerAttributes(args), "billing_address_address") == Some(Stringify(Arg(args, "address_address")))
  {
    KeysAreKeys(args, CustomerParams);
    BillingAddressSource();
    BillingAddressParams();
    CustomerAttributesGet(args, "billing_address_address");
  }

  // make_product_attribute

  datatype ProductAttributeArgs = ProductAttributeArgs(
    productId: Value,
    productOptionId: Value,
    productOptionValueId: Value,
    productAttributeId: Value,
    valuesPrice: Value,
    weight: Value,
    image: Value)

  /** `make_product_attribute`: four attributes, the price prefix always
      `"+"`, and the three links to the product, option and option value. */
  method MakeProductAttribute(a: ProductAttributeArgs) returns (r: Result<Document, BuildError>)
    ensures r == Success(Document(
      "product-attributes",
      IdOf(a.productAttributeId),
      [("option_values_price", a.valuesPrice), ("option_values_price_prefix", Str("+")),
       ("weight", a.weight), ("image", a.image)],
      Some([("product", One("products", a.productId)),
            ("product-option", One("product-options", a.productOptionId)),
            ("product-option-value", One("product-option-values", a.productOptionValueId))])))
  {
    var entries := [("option_values_price", a.valuesPrice), ("option_values_price_prefix", Str("+")),
                    ("weight", a.weight), ("image", a.image)];
    assert Keys(entries)[0] != Keys(entries)[1] && Keys(entries)[2] != Keys(entries)[3];
    var productAttribute := new Builder.FromSpec(ProductAttributeBuilder);
    SetEntries(productAttribute, entries);
    var product := ("product", One("products", a.productId));
    var option := ("product-option", One("product-options", a.productOptionId));
    var optionValue := ("product-option-value", One("product-option-values", a.productOptionValueId));
    Link(productAttribute, "product", "products", a.productId);
    assert [] + [product] == [product];
    Link(productAttribute, "product-option", "product-options", a.productOptionId);
    assert [product] + [option] == [product, option];
    Link(productAttribute, "product-option-value", "product-option-values", a.productOptionValueId);
    assert [product, option] + [optionValue] == [product, option, optionValue];
    productAttribute.SetId(a.productAttributeId);
    ProductAttributeComplete(productAttribute.attributes, productAttribute.relationships.value);
    r := productAttribute.Build();
  }

  lemma ProductAttributeComplete(attributes: Dict<Value>, links: Dict<Linkage>)
    requires attributes != [] && attributes[0].0 == "option_values_price"
    requires |links| == 3 && links[0].0 == "product" && links[1].0 == "product-option"
    requires links[2].0 == "product-option-value"
    ensures MandatoryFailure(ProductAttributeBuilder.mandatoryAttributes,
                             ProductAttributeBuilder.mandatoryRelationships, attributes, Some(links)).None?
  {
    assert Keys(attributes)[0] == "option_values_price";
    assert Keys(links)[0] == "product" && Keys(links)[1] == "product-option";
    assert Keys(links)[2] == "product-option-value";
  }

  // make_product_variant

  datatype ProductVariantArgs = ProductVariantArgs(
    productId: Value,
    productAttributes: seq<Value>,
    productVariantId: Value,
    quantity: Value,
    sku: Value,
    cost: Value,
    ean: Value)

  /** `make_product_variant`: four attributes and the links to the product
      and to each product attribute, in order. */
  method MakeProductVariant(a: ProductVariantArgs) returns (r: Result<Document, BuildError>)
    ensures r == Success(Document(
      "product-variants",
      IdOf(a.productVariantId),
      [("quantity", a.quantity), ("sku", a.sku), ("cost", a.cost), ("ean", a.ean)],
      Some([("product", One("products", a.productId)),
            ("product-attributes", ToMany(Refs("product-attributes", a.productAttributes)))])))
  {
    var entries := [("quantity", a.quantity), ("sku", a.sku), ("cost", a.cost), ("ean", a.ean)];
    assert Keys(entries)[0] != Keys(entries)[1] && Keys(entries)[2] != Keys(entries)[3];
    var productVariant := new Builder.FromSpec(ProductVariantBuilder);
    SetEntries(productVariant, entries);
    var product := ("product", One("products", a.productId));
    var attributes := ("product-attributes", ToMany(Refs("product-attributes", a.productAttributes)));
    Link(productVariant, "product", "products", a.productId);
    assert [] + [product] == [product];
    LinkList(productVariant, "product-attributes", "product-attributes", a.productAttributes);
    assert [product] + [attributes] == [product, attributes];
    productVariant.SetId(a.productVariantId);
    ProductVariantComplete(productVariant.attributes, productVariant.relationships.value);
    r := productVariant.Build();
  }

  lemma ProductVariantComplete(attributes: Dict<Value>, links: Dict<Linkage>)
    requires |links| == 2 && links[0].0 == "product" && links[1].0 == "product-attributes"
    ensures MandatoryFailure(ProductVariantBuilder.mandatoryAttributes,
                             ProductVariantBuilder.mandatoryRelationships, attributes, Some(links)).None?
  {
    assert Keys(links)[0] == "product" && Keys(links)[1] == "product-attributes";
  }

  // make_product_special

  const ProductSpecialParams: seq<string> := [
    "product_id", "specials_price", "status", "special_id", "created_at", "updated_at", "expires_at",
    "status_changed_at"]

  const ProductSpecialSkip: seq<string> := ["product_id", "special_id"]

  lemma ProductSpecialMandatoryNotSkipped()
    ensures forall k :: k in ProductSpecialBuilder.mandatoryAttributes.value ==> k !in ProductSpecialSkip
  {
  }

  /** `locals()` of `make_product_special` holds the mandatory attributes. */
  lemma ProductSpecialLocals(args: Dict<Value>)
    requires KeysAre(args, ProductSpecialParams)
    ensures forall k :: k in ProductSpecialBuilder.mandatoryAttributes.value ==> k in Keys(args)
  {
    KeysAreKeys(args, ProductSpecialParams);
  }

  /** `make_product_special`: every parameter but the two ids becomes an
      attribute; the special links to its product. */
  method MakeProductSpecial(args: Dict<Value>) returns (r: Result<Document, BuildError>)
    requires IsDict(args)
    requires forall k :: k in ProductSpecialBuilder.mandatoryAttributes.value ==> k in Keys(args)
    ensures r == Success(Document(
      "product-specials",
      IdOf(Arg(args, "special_id")),
      Without(args, ProductSpecialSkip),
      Some([("product", One("products", Arg(args, "product_id")))])))
  {
    var productSpecial := new Builder.FromSpec(ProductSpecialBuilder);
    SetAll(productSpecial, args, ProductSpecialSkip);
    var product := ("product", One("products", Arg(args, "product_id")));
    Link(productSpecial, "product", "products", Arg(args, "product_id"));
    assert [] + [product] == [product];
    productSpecial.SetId(Arg(args, "special_id"));
    ProductSpecialComplete(args, productSpecial.relationships.value);
    r := productSpecial.Build();
  }

  lemma ProductSpecialComplete(args: Dict<Value>, links: Dict<Linkage>)
    requires forall k :: k in ProductSpecialBuilder.mandatoryAttributes.value ==> k in Keys(args)
    requires |links| == 1 && links[0].0 == "product"
    ensures MandatoryFailure(ProductSpecialBuilder.mandatoryAttributes, ProductSpecialBuilder.mandatoryRelationships,
                             Without(args, ProductSpecialSkip), Some(links)).None?
  {
    ProductSpecialMandatoryNotSkipped();
    assert Keys(links)[0] == "product";
  }

  // make_product_review

  const ProductReviewParams: seq<string> := [
    "name", "rating", "review", "product_id", "customer_id", "review_id", "created_at", "updated_at"]

  const ProductReviewSkip: seq<string> := ["product_id", "customer_id", "review_id"]

  lemma ProductReviewMandatoryNotSkipped()
    ensures forall k :: k in ProductReviewBuilder.mandatoryAttributes.value ==> k !in ProductReviewSkip
  {
  }

  /** `locals()` of `make_product_review` holds the mandatory attributes. */
  lemma ProductReviewLocals(args: Dict<Value>)
    requires KeysAre(args, ProductReviewParams)
    ensures forall k :: k in ProductReviewBuilder.mandatoryAttributes.value ==> k in Keys(args)
  {
    KeysAreKeys(args, ProductReviewParams);
  }

  /** `make_product_review`: every parameter but the three ids becomes an
      attribute; the review links to its product and its customer. */
  method MakeProductReview(args: Dict<Value>) returns (r: Result<Document, BuildError>)
    requires IsDict(args)
    requires forall k :: k in ProductReviewBuilder.mandatoryAttributes.value ==> k in Keys(args)
    ensures r == Success(Document(
      "product-reviews",
      IdOf(Arg(args, "review_id")),
      Without(args, ProductReviewSkip),
      Some([("product", One("products", Arg(args, "product_id"))),
            ("customer", One("customers", Arg(args, "customer_id")))])))
  {
    var productReview := new Builder.FromSpec(ProductReviewBuilder);
    SetAll(productReview, args, ProductReviewSkip);
    var product := ("product", One("products", Arg(args, "product_id")));
    var customer := ("customer", One("customers", Arg(args, "customer_id")));
    Link(productReview, "product", "products", Arg(args, "product_id"));
    assert [] + [product] == [product];
    Link(productReview, "customer", "customers", Arg(args, "customer_id"));
    assert [product] + [customer] == [product, customer];
    productReview.SetId(Arg(args, "review_id"));
    ProductReviewComplete(args, productReview.relationships.value);
    r := productReview.Build();
  }

  lemma ProductReviewComplete(args: Dict<Value>, links: Dict<Linkage>)
    requires forall k :: k in ProductReviewBuilder.mandatoryAttributes.value ==> k in Keys(args)
    requires |links| == 2 && links[0].0 == "product" && links[1].0 == "customer"
    ensures MandatoryFailure(ProductReviewBuilder.mandatoryAttributes, ProductReviewBuilder.mandatoryRelationships,
                             Without(args, ProductReviewSkip), Some(links)).None?
  {
    ProductReviewMandatoryNotSkipped();
    assert Keys(links)[0] == "product" && Keys(links)[1] == "customer";
  }

  // make_discount

  const DiscountParams: seq<string> := [
    "name", "code", "value", "discount_id", "value_type", "combinable", "treshold_value",
    "value_can_transcend_order_total", "valid_for_product_specials", "valid_from", "valid_to",
    "valid_times", "valid_for_all_products", "valid_for_product_ids", "valid_for_category_ids",
    "valid_for_manufacturer_ids", "allow_partial_use", "remaining_value", "limited_to_customer_id",
    "only_most_expensive_product", "use_original_price"]

  const DiscountSkip: seq<string> := ["discount_id"]

  /** `sep.join(parts)`. */
  function Join(parts: seq<string>, sep: string): string
    decreases |parts|
  {
    if |parts| == 0 then ""
    else if |parts| == 1 then parts[0]
    else parts[0] + sep + Join(parts[1..], sep)
  }

  /** `s.split(c)`: the pieces between occurrences of `c`, always at least one. */
  function Split(s: string, c: char): (pieces: seq<string>)
    ensures |pieces| >= 1
    decreases |s|
  {
    if |s| == 0 then [""]
    else if s[0] == c then [""] + Split(s[1..], c)
    else
      var rest := Split(s[1..], c);
      [[s[0]] + rest[0]] + rest[1..]
  }

  lemma {:induction false} SplitPlain(p: string, c: char, rest: string)
    requires c !in p
    ensures Split(p + rest, c) == [p + Split(rest, c)[0]] + Split(rest, c)[1..]
    decreases |p|
  {
    var pieces := Split(rest, c);
    if |p| > 0 {
      var joined := p + rest;
      assert joined[0] == p[0] != c;
      assert joined[1..] == p[1..] + rest;
      assert c !in p[1..] by {
        assert forall x :: x in p[1..] ==> x in p;
      }
      SplitPlain(p[1..], c, rest);
      var tail := Split(joined[1..], c);
      assert Split(joined, c) == [[p[0]] + tail[0]] + tail[1..];
      assert [p[0]] + (p[1..] + pieces[0]) == p + pieces[0];
    } else {
      assert p + rest == rest && p + pieces[0] == pieces[0];
      assert [pieces[0]] + pieces[1..] == pieces;
    }
  }

  /** Splitting a join on its separator gives the parts back, when no part
      contains the separator. */
  lemma {:induction false} SplitJoin(parts: seq<string>, c: char)
    requires |parts| >= 1
    requires forall i :: 0 <= i < |parts| ==> c !in parts[i]
    ensures Split(Join(parts, [c]), c) == parts
    decreases |parts|
  {
    if |parts| == 1 {
      SplitPlain(parts[0], c, "");
      assert Split("", c) == [""];
      assert parts[0] + "" == parts[0];
      assert Join(parts, [c]) == parts[0];
      assert [parts[0]] == parts;
    } else {
      var tail := Join(parts[1..], [c]);
      SplitJoin(parts[1..], c);
      assert Join(parts, [c]) == parts[0] + ([c] + tail);
      SplitPlain(parts[0], c, [c] + tail);
      assert ([c] + tail)[0] == c && ([c] + tail)[1..] == tail;
      var pieces := Split([c] + tail, c);
      assert pieces == [""] + parts[1..];
      assert parts[0] + pieces[0] == parts[0];
      assert parts == [parts[0]] + parts[1..];
    }
  }

  predicate AllStr(items: seq<Value>)
  {
    forall i :: 0 <= i < |items| ==> items[i].Str?
  }

  function Strs(items: seq<Value>): (r: seq<string>)
    requires AllStr(items)
    ensures |r| == |items| && forall i :: 0 <= i < |items| ==> items[i] == Str(r[i])
  {
    seq(|items|, i requires 0 <= i < |items| => items[i].s)
  }

  /** `",".join(ids) if ids is not None else ""`: a TypeError when an id is
      not a str. */
  function JoinIds(ids: Value, argument: string): (r: Result<Value, BuildError>)
    requires ids.Null? || ids.Arr?
    ensures r.Success? <==> ids.Null? || AllStr(ids.items)
    ensures r.Success? ==> r.value.Str?
    ensures ids.Null? ==> r == Success(Str(""))
    ensures r.Failure? ==> r.error == TypeError(argument)
  {
    if ids.Null? then Success(Str(""))
    else if AllStr(ids.items) then Success(Str(Join(Strs(ids.items), ",")))
    else Failure(TypeError(argument))
  }

  /** The joined ids split back on commas are the ids, when none has a comma. */
  lemma JoinIdsRoundTrip(items: seq<Value>)
    requires |items| >= 1 && AllStr(items)
    requires forall i :: 0 <= i < |items| ==> ',' !in items[i].s
    ensures JoinIds(Arr(items), "").Success?
    ensures Split(JoinIds(Arr(items), "").value.s, ',') == Strs(items)
  {
    SplitJoin(Strs(items), ',');
  }

  predicate IdList(v: Value)
  {
    v.Null? || v.Arr?
  }

  /** The attribute `make_discount` writes under `k`, once the id lists are joined. */
  function DiscountAttribute(args: Dict<Value>, k: string): Option<Value>
    requires IdList(Arg(args, "valid_for_product_ids"))
    requires IdList(Arg(args, "valid_for_category_ids"))
    requires IdList(Arg(args, "valid_for_manufacturer_ids"))
  {
    if k == "discount_id" then None
    else if k == "valid_for_product_ids" || k == "valid_for_category_ids" || k == "valid_for_manufacturer_ids" then
      var joined := JoinIds(Arg(args, k), k);
      if joined.Success? then Some(joined.value) else None
    else if k == "remaining_value" && Arg(args, k) == Null then Some(Arg(args, "value"))
    else Get(args, k)
  }

  /** `locals()` of `make_discount` holds the mandatory attributes and the
      four parameters the function rebinds. */
  lemma DiscountLocals(args: Dict<Value>)
    requires KeysAre(args, DiscountParams)
    ensures forall k :: k in DiscountBuilder.mandatoryAttributes.value ==> k in Keys(args)
    ensures "valid_for_product_ids" in Keys(args) && "valid_for_category_ids" in Keys(args)
    ensures "valid_for_manufacturer_ids" in Keys(args) && "remaining_value" in Keys(args)
  {
    KeysAreKeys(args, DiscountParams);
  }

  lemma DiscountMandatoryNotSkipped()
    ensures forall k :: k in DiscountBuilder.mandatoryAttributes.value ==> k !in DiscountSkip
  {
  }

  /** `locals()` of `make_discount` once the id lists are joined and a `None`
      remaining value is replaced by the value. */
  function Rebound(args: Dict<Value>, productIds: Value, categoryIds: Value, manufacturerIds: Value): Dict<Value>
  {
    var joined := Put(Put(Put(args, "valid_for_product_ids", productIds),
                          "valid_for_category_ids", categoryIds),
                      "valid_for_manufacturer_ids", manufacturerIds);
    if Arg(args, "remaining_value") == Null then Put(joined, "remaining_value", Arg(args, "value")) else joined
  }

  /** Rebinding parameters keeps the dict's keys and their order. */
  lemma ReboundKeys(args: Dict<Value>, productIds: Value, categoryIds: Value, manufacturerIds: Value)
    requires IsDict(args)
    requires "valid_for_product_ids" in Keys(args) && "valid_for_category_ids" in Keys(args)
    requires "valid_for_manufacturer_ids" in Keys(args) && "remaining_value" in Keys(args)
    ensures IsDict(Rebound(args, productIds, categoryIds, manufacturerIds))
    ensures Keys(Rebound(args, productIds, categoryIds, manufacturerIds)) == Keys(args)
    ensures Keys(Without(Rebound(args, productIds, categoryIds, manufacturerIds), DiscountSkip))
         == Keys(Without(args, DiscountSkip))
  {
    WithoutKeys(Rebound(args, productIds, categoryIds, manufacturerIds), args, DiscountSkip);
  }

  /** A lookup in the rebound parameters: the new value of a rebound name,
      the old value of any other. */
  lemma ReboundLookup(args: Dict<Value>, productIds: Value, categoryIds: Value, manufacturerIds: Value, k: string)
    ensures Get(Rebound(args, productIds, categoryIds, manufacturerIds), k) ==
      if k == "valid_for_product_ids" then Some(productIds)
      else if k == "valid_for_category_ids" then Some(categoryIds)
      else if k == "valid_for_manufacturer_ids" then Some(manufacturerIds)
      else if k == "remaining_value" && Arg(args, k) == Null then Some(Arg(args, "value"))
      else Get(args, k)
  {
    var m1 := Put(args, "valid_for_product_ids", productIds);
    var m2 := Put(m1, "valid_for_category_ids", categoryIds);
    var m3 := Put(m2, "valid_for_manufacturer_ids", manufacturerIds);
    PutGet(args, "valid_for_product_ids", productIds);
    PutGet(m1, "valid_for_category_ids", categoryIds);
    PutGet(m2, "valid_for_manufacturer_ids", manufacturerIds);
    if Arg(args, "remaining_value") == Null {
      PutGet(m3, "remaining_value", Arg(args, "value"));
    }
  }

  /** Past the skip list, each key of the rebound parameters holds what
      `DiscountAttribute` says. */
  lemma ReboundGet(args: Dict<Value>, productIds: Value, categoryIds: Value, manufacturerIds: Value, k: string)
    requires IsDict(args)
    requires "valid_for_product_ids" in Keys(args) && "valid_for_category_ids" in Keys(args)
    requires "valid_for_manufacturer_ids" in Keys(args) && "remaining_value" in Keys(args)
    requires IdList(Arg(args, "valid_for_product_ids"))
    requires IdList(Arg(args, "valid_for_category_ids"))
    requires IdList(Arg(args, "valid_for_manufacturer_ids"))
    requires JoinIds(Arg(args, "valid_for_product_ids"), "valid_for_product_ids") == Success(productIds)
    requires JoinIds(Arg(args, "valid_for_category_ids"), "valid_for_category_ids") == Success(categoryIds)
    requires JoinIds(Arg(args, "valid_for_manufacturer_ids"), "valid_for_manufacturer_ids") == Success(manufacturerIds)
    ensures Get(Without(Rebound(args, productIds, categoryIds, manufacturerIds), DiscountSkip), k)
            == DiscountAttribute(args, k)
  {
    ReboundKeys(args, productIds, categoryIds, manufacturerIds);
    WithoutGet(Rebound(args, productIds, categoryIds, manufacturerIds), DiscountSkip, k);
    ReboundLookup(args, productIds, categoryIds, manufacturerIds, k);
  }

  lemma DiscountComplete(arguments: Dict<Value>)
    requires forall k :: k in DiscountBuilder.mandatoryAttributes.value ==> k in Keys(arguments)
    ensures MandatoryFailure(DiscountBuilder.mandatoryAttributes, DiscountBuilder.mandatoryRelationships,
                             Without(arguments, DiscountSkip), None).None?
  {
    DiscountMandatoryNotSkipped();
  }

  /** `make_discount`: each id list becomes its comma-joined str (`""` for
      `None`), a `None` remaining value becomes the value, and every
      parameter but `discount_id` is an attribute, in declaration order. */
  method MakeDiscount(args: Dict<Value>) returns (r: Result<Document, BuildError>)
    requires IsDict(args)
    requires forall k :: k in DiscountBuilder.mandatoryAttributes.value ==> k in Keys(args)
    requires "valid_for_product_ids" in Keys(args) && "valid_for_category_ids" in Keys(args)
    requires "valid_for_manufacturer_ids" in Keys(args) && "remaining_value" in Keys(args)
    requires IdList(Arg(args, "valid_for_product_ids"))
    requires IdList(Arg(args, "valid_for_category_ids"))
    requires IdList(Arg(args, "valid_for_manufacturer_ids"))
    ensures JoinIds(Arg(args, "valid_for_product_ids"), "valid_for_product_ids").Failure? ==>
      r == Failure(TypeError("valid_for_product_ids"))
    ensures JoinIds(Arg(args, "valid_for_product_ids"), "valid_for_product_ids").Success? &&
            JoinIds(Arg(args, "valid_for_category_ids"), "valid_for_category_ids").Failure? ==>
      r == Failure(TypeError("valid_for_category_ids"))
    ensures JoinIds(Arg(args, "valid_for_product_ids"), "valid_for_product_ids").Success? &&
            JoinIds(Arg(args, "valid_for_category_ids"), "valid_for_category_ids").Success? &&
            JoinIds(Arg(args, "valid_for_manufacturer_ids"), "valid_for_manufacturer_ids").Failure? ==>
      r == Failure(TypeError("valid_for_manufacturer_ids"))
    ensures r.Success? <==>
      && JoinIds(Arg(args, "valid_for_product_ids"), "valid_for_product_ids").Success?
      && JoinIds(Arg(args, "valid_for_category_ids"), "valid_for_category_ids").Success?
      && JoinIds(Arg(args, "valid_for_manufacturer_ids"), "valid_for_manufacturer_ids").Success?
    ensures r.Success? ==> r.value.resourceType == "discounts" && r.value.relationships == None
    ensures r.Success? ==> r.value.id == IdOf(Arg(args, "discount_id"))
    ensures r.Success? ==> Keys(r.value.attributes) == Keys(Without(args, DiscountSkip))
    ensures r.Success? ==> forall k :: Get(r.value.attributes, k) == DiscountAttribute(args, k)
  {
    var productIds :- JoinIds(Arg(args, "valid_for_product_ids"), "valid_for_product_ids");
    var categoryIds :- JoinIds(Arg(args, "valid_for_category_ids"), "valid_for_category_ids");
    var manufacturerIds :- JoinIds(Arg(args, "valid_for_manufacturer_ids"), "valid_for_manufacturer_ids");
    var arguments := Rebound(args, productIds, categoryIds, manufacturerIds);
    ReboundKeys(args, productIds, categoryIds, manufacturerIds);
    forall k
      ensures Get(Without(arguments, DiscountSkip), k) == DiscountAttribute(args, k)
    {
      ReboundGet(args, productIds, categoryIds, manufacturerIds, k);
    }
    var discount := new Builder.FromSpec(DiscountBuilder);
    SetAll(discount, arguments, DiscountSkip);
    discount.SetId(Arg(args, "discount_id"));
    DiscountComplete(arguments);
    r := discount.Build();
  }

  // make_attribute_customer_group_price

  datatype AttributeCustomerGroupPriceArgs = AttributeCustomerGroupPriceArgs(
    price: Value,
    productId: Value,
    optionId: Value,
    valueId: Value,
    customerGroupId: Value,
    taxClassId: Value,
    attributeCustomerGroupPriceId: Value)

  /** `make_attribute_customer_group_price`: the price with the prefix always
      `"+"`, four links, and a tax class link exactly when one is given. */
  method MakeAttributeCustomerGroupPrice(a: AttributeCustomerGroupPriceArgs) returns (r: Result<Document, BuildError>)
    ensures r == Success(Document(
      "product-attribute-customer-group-prices",
      IdOf(a.attributeCustomerGroupPriceId),
      [("price", a.price), ("price_prefix", Str("+"))],
      Some([("product", One("products", a.productId)),
            ("product-option", One("product-options", a.optionId)),
            ("product-option-value", One("product-option-values", a.valueId)),
            ("customer-group", One("customer-groups", a.customerGroupId))]
           + OptLink("tax-class", "tax-classes", a.taxClassId))))
  {
    var acgp := new Builder.FromSpec(AttributeCustomerGroupPriceBuilder);
    SetPrice(acgp, a.price);
    LinkAttributeCustomerGroupPrice(acgp, a);
    acgp.SetId(a.attributeCustomerGroupPriceId);
    AttributeCustomerGroupPriceComplete(acgp.attributes, acgp.relationships.value);
    r := acgp.Build();
  }

  /** The two `set_attribute` calls of `make_attribute_customer_group_price`. */
  method SetPrice(acgp: Builder, price: Value)
    requires acgp.Valid() && acgp.attributes == []
    modifies acgp
    ensures acgp.Valid()
    ensures acgp.attributes == [("price", price), ("price_prefix", Str("+"))]
    ensures acgp.id == old(acgp.id) && acgp.relationships == old(acgp.relationships)
  {
    PutFresh([], "price", price);
    assert [] + [("price", price)] == [("price", price)];
    acgp.SetAttribute("price", price);
    PutFresh([("price", price)], "price_prefix", Str("+"));
    acgp.SetAttribute("price_prefix", Str("+"));
  }

  /** The five `set_relationship` calls of `make_attribute_customer_group_price`. */
  method LinkAttributeCustomerGroupPrice(acgp: Builder, a: AttributeCustomerGroupPriceArgs)
    requires acgp.Valid() && acgp.relationships.None?
    modifies acgp
    ensures acgp.Valid()
    ensures acgp.relationships ==
      Some([("product", One("products", a.productId)),
            ("product-option", One("product-options", a.optionId)),
            ("product-option-value", One("product-option-values", a.valueId)),
            ("customer-group", One("customer-groups", a.customerGroupId))]
           + OptLink("tax-class", "tax-classes", a.taxClassId))
    ensures acgp.id == old(acgp.id) && acgp.attributes == old(acgp.attributes)
  {
    var product := ("product", One("products", a.productId));
    var option := ("product-option", One("product-options", a.optionId));
    var optionValue := ("product-option-value", One("product-option-values", a.valueId));
    var customerGroup := ("customer-group", One("customer-groups", a.customerGroupId));
    Link(acgp, "product", "products", a.productId);
    assert [] + [product] == [product];
    Link(acgp, "product-option", "product-options", a.optionId);
    assert [product] + [option] == [product, option];
    Link(acgp, "product-option-value", "product-option-values", a.valueId);
    assert [product, option] + [optionValue] == [product, option, optionValue];
    Link(acgp, "customer-group", "customer-groups", a.customerGroupId);
    assert [product, option, optionValue] + [customerGroup] == [product, option, optionValue, customerGroup];
    LinkIfGiven(acgp, "tax-class", "tax-classes", a.taxClassId);
  }

  lemma AttributeCustomerGroupPriceComplete(attributes: Dict<Value>, links: Dict<Linkage>)
    requires |attributes| == 2 && attributes[0].0 == "price" && attributes[1].0 == "price_prefix"
    requires |links| >= 4 && links[0].0 == "product" && links[1].0 == "product-option"
    requires links[2].0 == "product-option-value" && links[3].0 == "customer-group"
    ensures MandatoryFailure(AttributeCustomerGroupPriceBuilder.mandatoryAttributes,
                             AttributeCustomerGroupPriceBuilder.mandatoryRelationships, attributes, Some(links)).None?
  {
    assert Keys(attributes)[0] == "price" && Keys(attributes)[1] == "price_prefix";
    assert Keys(links)[0] == "product" && Keys(links)[1] == "product-option";
    assert Keys(links)[2] == "product-option-value" && Keys(links)[3] == "customer-group";
  }

  // make_tax_class

  const TaxClassParams: seq<string> := ["tax_rate", "tax_class_id", "title", "description", "created_at", "updated_at"]

  const TaxClassSkip: seq<string> := ["tax_class_id"]

  lemma TaxClassMandatoryNotSkipped()
    ensures forall k :: k in TaxClassBuilder.mandatoryAttributes.value ==> k !in TaxClassSkip
  {
  }

  /** `locals()` of `make_tax_class` holds the mandatory attributes. */
  lemma TaxClassLocals(args: Dict<Value>)
    requires KeysAre(args, TaxClassParams)
    ensures forall k :: k in TaxClassBuilder.mandatoryAttributes.value ==> k in Keys(args)
  {
    KeysAreKeys(args, TaxClassParams);
  }

  lemma TaxClassComplete(args: Dict<Value>)
    requires forall k :: k in TaxClassBuilder.mandatoryAttributes.value ==> k in Keys(args)
    ensures MandatoryFailure(TaxClassBuilder.mandatoryAttributes, TaxClassBuilder.mandatoryRelationships,
                             Without(args, TaxClassSkip), None).None?
  {
    TaxClassMandatoryNotSkipped();
  }

  /** `make_tax_class`: every parameter but the id becomes an attribute. */
  method MakeTaxClass(args: Dict<Value>) returns (r: Result<Document, BuildError>)
    requires IsDict(args)
    requires forall k :: k in TaxClassBuilder.mandatoryAttributes.value ==> k in Keys(args)
    ensures r == Success(Document("tax-classes", IdOf(Arg(args, "tax_class_id")), Without(args, TaxClassSkip), None))
  {
    var taxClass := new Builder.FromSpec(TaxClassBuilder);
    SetAll(taxClass, args, TaxClassSkip);
    taxClass.SetId(Arg(args, "tax_class_id"));
    TaxClassComplete(args);
    r := taxClass.Build();
  }

  // make_redirect

  const RedirectParams: seq<string> := ["redirect_from", "redirect_to", "redirect_id", "code", "scope", "created_at", "language"]

  const RedirectSkip: seq<string> := ["redirect_id"]

  lemma RedirectMandatoryNotSkipped()
    ensures forall k :: k in RedirectBuilder.mandatoryAttributes.value ==> k !in RedirectSkip
  {
  }

  /** `locals()` of `make_redirect` holds the mandatory attributes. */
  lemma RedirectLocals(args: Dict<Value>)
    requires KeysAre(args, RedirectParams)
    ensures forall k :: k in RedirectBuilder.mandatoryAttributes.value ==> k in Keys(args)
  {
    KeysAreKeys(args, RedirectParams);
  }

  lemma RedirectComplete(args: Dict<Value>)
    requires forall k :: k in RedirectBuilder.mandatoryAttributes.value ==> k in Keys(args)
    ensures MandatoryFailure(RedirectBuilder.mandatoryAttributes, RedirectBuilder.mandatoryRelationships,
                             Without(args, RedirectSkip), None).None?
  {
    RedirectMandatoryNotSkipped();
  }

  /** `make_redirect`: every parameter but the id becomes an attribute. */
  method MakeRedirect(args: Dict<Value>) returns (r: Result<Document, BuildError>)
    requires IsDict(args)
    requires forall k :: k in RedirectBuilder.mandatoryAttributes.value ==> k in Keys(args)
    ensures r == Success(Document("redirects", IdOf(Arg(args, "redirect_id")), Without(args, RedirectSkip), None))
  {
    var redirect := new Builder.FromSpec(RedirectBuilder);
    SetAll(redirect, args, RedirectSkip);
    redirect.SetId(Arg(args, "redirect_id"));
    RedirectComplete(args);
    r := redirect.Build();
  }

  // make_order

  /** A dict literal: each name bound to the value at the same position. */
  function Entries(names: seq<string>, values: seq<Value>): (r: Dict<Value>)
    requires |names| == |values|
    ensures Keys(r) == names
    ensures forall i :: 0 <= i < |r| ==> r[i].1 == values[i]
  {
    seq(|names|, i requires 0 <= i < |names| => (names[i], values[i]))
  }

  /** `record[key]`: a KeyError when the key is absent. */
  function Lookup(record: Dict<Value>, key: string): (r: Result<Value, BuildError>)
    ensures r.Success? <==> key in Keys(record)
    ensures r.Success? ==> Get(record, key) == Some(r.value)
    ensures r.Failure? ==> r.error == KeyError(key)
  {
    if key in Keys(record) then Success(Get(record, key).value) else Failure(KeyError(key))
  }

  /** The customer's own name when the address name is `None`. The address
      name is looked up first. */
  function CustomerAddressName(customer: Dict<Value>): (r: Result<Value, BuildError>)
    ensures r.Success? <==>
      "address_name" in Keys(customer) && (Get(customer, "address_name") == Some(Null) ==> "name" in Keys(customer))
    ensures r.Success? ==>
      Some(r.value) == if Get(customer, "address_name") == Some(Null) then Get(customer, "name") else Get(customer, "address_name")
    ensures r.Failure? ==>
      r.error == if "address_name" in Keys(customer) then KeyError("name") else KeyError("address_name")
  {
    var addressName :- Lookup(customer, "address_name");
    if addressName == Null then Lookup(customer, "name") else Success(addressName)
  }

  /** The assignments `make_order` copies from the customer, as pairs of
      (order attribute, customer attribute), in the order they run. */
  const CustomerAddressCopies: seq<(string, string)> := [
    ("customer_address_company", "address_company"), ("customer_address_address", "address_address"),
    ("customer_address_region", "address_region"), ("customer_address_city", "address_city"),
    ("customer_address_zipcode", "address_zipcode"), ("customer_address_state", "address_state"),
    ("customer_address_country", "address_country"), ("customer_address_phone", "phone"),
    ("customer_address_email", "email")]

  const ShippingAddressCopies: seq<(string, string)> := [
    ("shipping_address_company", "address_company"), ("shipping_address_address", "address_address"),
    ("shipping_address_region", "address_region"), ("shipping_address_city", "address_city"),
    ("shipping_address_zipcode", "address_zipcode"), ("shipping_address_state", "address_state"),
    ("shipping_address_country", "address_country")]

  const BillingAddressCopies: seq<(string, string)> := [
    ("billing_address_name", "billing_address_name"), ("billing_address_company", "billing_address_company"),
    ("billing_address_address", "billing_address_address"), ("billing_address_region", "billing_address_region"),
    ("billing_address_city", "billing_address_city"), ("billing_address_zipcode", "billing_address_zipcode"),
    ("billing_address_state", "billing_address_state"), ("billing_address_country", "billing_address_country"),
    ("billing_address_email", "billing_address_email"), ("company_number", "address_company_number")]

  /** The keys of the attribute literal of `make_order`, in its order: the
      customer address, the shipping address, the billing address with the
      company number, then the order's own fields. */
  const OrderAttributeNames: seq<string> :=
    ["customer_address_name"] + Keys(CustomerAddressCopies)
    + ["shipping_address_name"] + Keys(ShippingAddressCopies)
    + Keys(BillingAddressCopies)
    + ["payment_method", "payment_module", "updated_at", "created_at", "finished_at", "currency",
       "currency_value", "invoice_id", "invoice_due_at", "shipping_method", "tracking_number",
       "overdue_notice", "overdue_notice_due_at", "credit_note", "credit_note_created_at", "reference",
       "estimated_delivery_at"]

  /** `attributes[target] = customer[source]` for each pair in turn; the first
      absent source raises KeyError. */
  function CopyFrom(attributes: Dict<Value>, customer: Dict<Value>, copies: seq<(string, string)>): Result<Dict<Value>, BuildError>
    decreases |copies|
  {
    if copies == [] then Success(attributes)
    else
      var n := |copies| - 1;
      var init :- CopyFrom(attributes, customer, copies[..n]);
      var v :- Lookup(customer, copies[n].1);
      Success(Put(init, copies[n].0, v))
  }

  /** The copies succeed exactly when every source is present. */
  lemma {:induction false} CopyFromSucceeds(attributes: Dict<Value>, customer: Dict<Value>, copies: seq<(string, string)>)
    ensures CopyFrom(attributes, customer, copies).Success? <==>
      forall i :: 0 <= i < |copies| ==> copies[i].1 in Keys(customer)
    decreases |copies|
  {
    if copies != [] {
      var n := |copies| - 1;
      var prefix := copies[..n];
      CopyFromSucceeds(attributes, customer, prefix);
      CopyFromLast(attributes, customer, copies);
      SourcesSplit(customer, copies, prefix);
    }
  }

  lemma CopyFromLast(attributes: Dict<Value>, customer: Dict<Value>, copies: seq<(string, string)>)
    requires copies != []
    ensures CopyFrom(attributes, customer, copies).Success? <==>
      CopyFrom(attributes, customer, copies[..|copies| - 1]).Success? && copies[|copies| - 1].1 in Keys(customer)
  {
  }

  lemma SourcesSplit(customer: Dict<Value>, copies: seq<(string, string)>, prefix: seq<(string, string)>)
    requires copies != [] && prefix == copies[..|copies| - 1]
    ensures (forall i :: 0 <= i < |copies| ==> copies[i].1 in Keys(customer)) <==>
      (forall i :: 0 <= i < |prefix| ==> prefix[i].1 in Keys(customer))
      && copies[|copies| - 1].1 in Keys(customer)
  {
    assert forall i :: 0 <= i < |prefix| ==> prefix[i] == copies[i];
  }

  /** A failed copy run raises the KeyError of the first absent source. */
  lemma {:induction false} CopyFromFirstMissing(attributes: Dict<Value>, customer: Dict<Value>, copies: seq<(string, string)>)
    requires CopyFrom(attributes, customer, copies).Failure?
    ensures exists i :: 0 <= i < |copies| && copies[i].1 !in Keys(customer) &&
                        CopyFrom(attributes, customer, copies).error == KeyError(copies[i].1) &&
                        forall j :: 0 <= j < i ==> copies[j].1 in Keys(customer)
    decreases |copies|
  {
    var n := |copies| - 1;
    var prefix := copies[..n];
    if CopyFrom(attributes, customer, prefix).Failure? {
      CopyFromFirstMissing(attributes, customer, prefix);
      var i :| 0 <= i < n && prefix[i].1 !in Keys(customer) &&
        CopyFrom(attributes, customer, prefix).error == KeyError(prefix[i].1) &&
        forall j :: 0 <= j < i ==> prefix[j].1 in Keys(customer);
      assert prefix[i] == copies[i];
      forall j | 0 <= j < i
        ensures copies[j].1 in Keys(customer)
      {
        assert prefix[j] == copies[j];
      }
    } else {
      CopyFromSucceeds(attributes, customer, prefix);
      forall j | 0 <= j < n
        ensures copies[j].1 in Keys(customer)
      {
        assert prefix[j] == copies[j];
      }
    }
  }

  /** Once a prefix of the copies fails, the whole run fails the same way. */
  lemma {:induction false} CopyFromPrefixFails(attributes: Dict<Value>, customer: Dict<Value>, copies: seq<(string, string)>, j: nat)
    requires j <= |copies|
    requires CopyFrom(attributes, customer, copies[..j]).Failure?
    ensures CopyFrom(attributes, customer, copies) == CopyFrom(attributes, customer, copies[..j])
    decreases |copies| - j
  {
    if j < |copies| {
      assert copies[..j + 1][..j] == copies[..j];
      CopyFromPrefixFails(attributes, customer, copies, j + 1);
    } else {
      assert copies[..j] == copies;
    }
  }

  /** Copying into keys that exist keeps the keys and their order. */
  lemma {:induction false} CopyFromKeys(attributes: Dict<Value>, customer: Dict<Value>, copies: seq<(string, string)>)
    requires CopyFrom(attributes, customer, copies).Success?
    requires forall i :: 0 <= i < |copies| ==> copies[i].0 in Keys(attributes)
    ensures Keys(CopyFrom(attributes, customer, copies).value) == Keys(attributes)
    decreases |copies|
  {
    if copies != [] {
      var n := |copies| - 1;
      CopyFromKeys(attributes, customer, copies[..n]);
    }
  }

  /** With distinct targets, each target ends up holding its source's value
      and every other key keeps its own. */
  lemma {:induction false} CopyFromGet(attributes: Dict<Value>, customer: Dict<Value>, copies: seq<(string, string)>, k: string)
    requires CopyFrom(attributes, customer, copies).Success?
    requires IsDict(copies)
    ensures Get(CopyFrom(attributes, customer, copies).value, k) ==
      if k in Keys(copies) then Get(customer, Get(copies, k).value) else Get(attributes, k)
    decreases |copies|
  {
    if copies != [] {
      var n := |copies| - 1;
      var prefix := copies[..n];
      SplitLast(copies);
      KeysAppend(prefix, copies[n]);
      GetAppend(prefix, copies[n], k);
      CopyFromGet(attributes, customer, prefix, k);
      var init := CopyFrom(attributes, customer, prefix).value;
      PutGet(init, copies[n].0, Lookup(customer, copies[n].1).value);
    }
  }

  /** `for target, source in copies: attributes[target] = customer[source]`:
      the straight-line assignments of `make_order`, run in their order. */
  method CopyFields(attributes: Dict<Value>, customer: Dict<Value>, copies: seq<(string, string)>)
    returns (r: Result<Dict<Value>, BuildError>)
    ensures r == CopyFrom(attributes, customer, copies)
  {
    var copied := attributes;
    var i := 0;
    while i < |copies|
      invariant 0 <= i <= |copies|
      invariant CopyFrom(attributes, customer, copies[..i]) == Success(copied)
    {
      var v := Lookup(customer, copies[i].1);
      CopyFromStep(attributes, customer, copies, i);
      if v.Failure? {
        CopyFromPrefixFails(attributes, customer, copies, i + 1);
        return Failure(v.error);
      }
      copied := Put(copied, copies[i].0, v.value);
      i := i + 1;
    }
    assert copies[..i] == copies;
    r := Success(copied);
  }

  /** One more pair of copies: the run so far, then the lookup of its source. */
  lemma CopyFromStep(attributes: Dict<Value>, customer: Dict<Value>, copies: seq<(string, string)>, i: nat)
    requires i < |copies|
    ensures CopyFrom(attributes, customer, copies[..i + 1]) ==
      match CopyFrom(attributes, customer, copies[..i])
      case Failure(e) => Failure(e)
      case Success(init) =>
        match Lookup(customer, copies[i].1)
        case Failure(e) => Failure(e)
        case Success(v) => Success(Put(init, copies[i].0, v))
  {
    assert copies[..i + 1][..i] == copies[..i];
  }

  /** The attributes after the `fetch_customer_data` block: the customer
      address, then the shipping address unless a shipping name was given,
      then the billing address and the company number. The shipping block
      evaluates the address-name expression again; it gives the same value. */
  function CustomerData(attributes: Dict<Value>, customer: Dict<Value>, shippingAddressName: Value): Result<Dict<Value>, BuildError>
  {
    var name :- CustomerAddressName(customer);
    var withCustomer :- CopyFrom(Put(attributes, "customer_address_name", name), customer, CustomerAddressCopies);
    var withShipping :-
      if shippingAddressName != Null then Success(withCustomer)
      else
        CopyFrom(Put(withCustomer, "shipping_address_name", name), customer, ShippingAddressCopies);
    CopyFrom(withShipping, customer, BillingAddressCopies)
  }

  /** The two relationships of an order; both are typed `"customers"`. */
  function OrderLinks(customerId: Value, orderStatusId: Value): Dict<Linkage>
  {
    [("customer", One("customers", customerId)), ("order_status", One("customers", orderStatusId))]
  }

  datatype OrderArgs = OrderArgs(
    customerId: Value,
    orderStatusId: Value,
    fetchCustomerData: bool,
    orderId: Value,
    attributeValues: seq<Value>)

  /** `make_order`, with `customer["attributes"]` of the fetched customer
      passed in: the attribute literal with every argument (`None`
      included), overwritten from the customer when asked to. */
  method MakeOrder(a: OrderArgs, customer: Dict<Value>) returns (r: Result<Document, BuildError>)
    requires |a.attributeValues| == |OrderAttributeNames|
    ensures !a.fetchCustomerData ==>
      r == Success(Document("orders", IdOf(a.orderId), Entries(OrderAttributeNames, a.attributeValues),
                            Some(OrderLinks(a.customerId, a.orderStatusId))))
    ensures a.fetchCustomerData ==>
      var fetched := CustomerData(Entries(OrderAttributeNames, a.attributeValues), customer,
                                  Arg(Entries(OrderAttributeNames, a.attributeValues), "shipping_address_name"));
      && (r.Success? <==> fetched.Success?)
      && (r.Success? ==> r.value == Document("orders", IdOf(a.orderId), fetched.value,
                                             Some(OrderLinks(a.customerId, a.orderStatusId))))
      && (r.Failure? ==> r.error == fetched.error)
  {
    var attributes := Entries(OrderAttributeNames, a.attributeValues);
    var shippingAddressName := Arg(attributes, "shipping_address_name");
    if a.fetchCustomerData {
      var name :- CustomerAddressName(customer);
      attributes := Put(attributes, "customer_address_name", name);
      attributes :- CopyFields(attributes, customer, CustomerAddressCopies);
      if shippingAddressName == Null {
        attributes := Put(attributes, "shipping_address_name", name);
        attributes :- CopyFields(attributes, customer, ShippingAddressCopies);
      }
      attributes :- CopyFields(attributes, customer, BillingAddressCopies);
    }
    var order := Document("orders", None, attributes, Some(OrderLinks(a.customerId, a.orderStatusId)));
    if a.orderId != Null {
      order := order.(id := Some(a.orderId));
    }
    r := Success(order);
  }

  /** What the `fetch_customer_data` block leaves under each key: the last
      assignment to it wins; a key it never assigns keeps its value. */
  lemma CustomerDataGet(attributes: Dict<Value>, customer: Dict<Value>, shippingAddressName: Value, k: string)
    requires CustomerData(attributes, customer, shippingAddressName).Success?
    ensures CustomerAddressName(customer).Success?
    ensures Get(CustomerData(attributes, customer, shippingAddressName).value, k) ==
      if k in Keys(BillingAddressCopies) then Get(customer, Get(BillingAddressCopies, k).value)
      else if shippingAddressName == Null && k in Keys(ShippingAddressCopies) then
        Get(customer, Get(ShippingAddressCopies, k).value)
      else if shippingAddressName == Null && k == "shipping_address_name" then Some(CustomerAddressName(customer).value)
      else if k in Keys(CustomerAddressCopies) then Get(customer, Get(CustomerAddressCopies, k).value)
      else if k == "customer_address_name" then Some(CustomerAddressName(customer).value)
      else Get(attributes, k)
  {
    CopyTablesAreDicts();
    var name := CustomerAddressName(customer).value;
    var named := Put(attributes, "customer_address_name", name);
    PutGet(attributes, "customer_address_name", name);
    CopyFromGet(named, customer, CustomerAddressCopies, k);
    var withCustomer := CopyFrom(named, customer, CustomerAddressCopies).value;
    var withShipping := withCustomer;
    if shippingAddressName == Null {
      var shippingNamed := Put(withCustomer, "shipping_address_name", name);
      PutGet(withCustomer, "shipping_address_name", name);
      CopyFromGet(shippingNamed, customer, ShippingAddressCopies, k);
      withShipping := CopyFrom(shippingNamed, customer, ShippingAddressCopies).value;
    }
    CopyFromGet(withShipping, customer, BillingAddressCopies, k);
  }

  /** The targets of the copy tables, in order. */
  lemma CopyTableKeys()
    ensures Keys(CustomerAddressCopies) == [
      "customer_address_company", "customer_address_address", "customer_address_region",
      "customer_address_city", "customer_address_zipcode", "customer_address_state",
      "customer_address_country", "customer_address_phone", "customer_address_email"]
    ensures Keys(ShippingAddressCopies) == [
      "shipping_address_company", "shipping_address_address", "shipping_address_region",
      "shipping_address_city", "shipping_address_zipcode", "shipping_address_state",
      "shipping_address_country"]
    ensures Keys(BillingAddressCopies) == [
      "billing_address_name", "billing_address_company", "billing_address_address",
      "billing_address_region", "billing_address_city", "billing_address_zipcode",
      "billing_address_state", "billing_address_country", "billing_address_email", "company_number"]
  {
  }

  /** Each copy table assigns every target once. */
  lemma CopyTablesAreDicts()
    ensures IsDict(CustomerAddressCopies) && IsDict(ShippingAddressCopies) && IsDict(BillingAddressCopies)
  {
    CopyTableKeys();
  }

  /** No copy table assigns either name field. */
  lemma NamesNotCopied()
    ensures "customer_address_name" !in Keys(CustomerAddressCopies)
    ensures "customer_address_name" !in Keys(ShippingAddressCopies)
    ensures "customer_address_name" !in Keys(BillingAddressCopies)
    ensures "shipping_address_name" !in Keys(CustomerAddressCopies)
    ensures "shipping_address_name" !in Keys(ShippingAddressCopies)
    ensures "shipping_address_name" !in Keys(BillingAddressCopies)
  {
    CopyTableKeys();
  }

  /** The block succeeds exactly when every customer attribute it reads is
      present; otherwise it raises the KeyError of an absent one. */
  lemma CustomerDataSucceeds(attributes: Dict<Value>, customer: Dict<Value>, shippingAddressName: Value)
    ensures CustomerData(attributes, customer, shippingAddressName).Success? <==>
      && CustomerAddressName(customer).Success?
      && (forall i :: 0 <= i < |CustomerAddressCopies| ==> CustomerAddressCopies[i].1 in Keys(customer))
      && (shippingAddressName == Null ==>
            forall i :: 0 <= i < |ShippingAddressCopies| ==> ShippingAddressCopies[i].1 in Keys(customer))
      && (forall i :: 0 <= i < |BillingAddressCopies| ==> BillingAddressCopies[i].1 in Keys(customer))
    ensures CustomerData(attributes, customer, shippingAddressName).Failure? ==>
      exists key :: key !in Keys(customer) && CustomerData(attributes, customer, shippingAddressName).error == KeyError(key)
  {
    var nameResult := CustomerAddressName(customer);
    if nameResult.Success? {
      var named := Put(attributes, "customer_address_name", nameResult.value);
      CopyFromSucceeds(named, customer, CustomerAddressCopies);
      var withCustomer := CopyFrom(named, customer, CustomerAddressCopies);
      if withCustomer.Failure? {
        CopyFromFirstMissing(named, customer, CustomerAddressCopies);
      } else {
        var withShipping := Success(withCustomer.value);
        if shippingAddressName == Null {
          var shippingNamed := Put(withCustomer.value, "shipping_address_name", nameResult.value);
          CopyFromSucceeds(shippingNamed, customer, ShippingAddressCopies);
          withShipping := CopyFrom(shippingNamed, customer, ShippingAddressCopies);
          if withShipping.Failure? {
            CopyFromFirstMissing(shippingNamed, customer, ShippingAddressCopies);
          }
        }
        if withShipping.Success? {
          CopyFromSucceeds(withShipping.value, customer, BillingAddressCopies);
          if CopyFrom(withShipping.value, customer, BillingAddressCopies).Failure? {
            CopyFromFirstMissing(withShipping.value, customer, BillingAddressCopies);
          }
        }
      }
    }
  }

  /** Every key the block assigns is a key of the attribute literal. */
  lemma OrderTargetsPresent()
    ensures "customer_address_name" in OrderAttributeNames && "shipping_address_name" in OrderAttributeNames
    ensures forall i :: 0 <= i < |CustomerAddressCopies| ==> CustomerAddressCopies[i].0 in OrderAttributeNames
    ensures forall i :: 0 <= i < |ShippingAddressCopies| ==> ShippingAddressCopies[i].0 in OrderAttributeNames
    ensures forall i :: 0 <= i < |BillingAddressCopies| ==> BillingAddressCopies[i].0 in OrderAttributeNames
  {
    assert OrderAttributeNames[0] == "customer_address_name";
    assert OrderAttributeNames[1 + |CustomerAddressCopies|] == "shipping_address_name";
    forall i | 0 <= i < |CustomerAddressCopies|
      ensures CustomerAddressCopies[i].0 in OrderAttributeNames
    {
      assert OrderAttributeNames[1 + i] == Keys(CustomerAddressCopies)[i];
    }
    forall i | 0 <= i < |ShippingAddressCopies|
      ensures ShippingAddressCopies[i].0 in OrderAttributeNames
    {
      assert OrderAttributeNames[2 + |CustomerAddressCopies| + i] == Keys(ShippingAddressCopies)[i];
    }
    forall i | 0 <= i < |BillingAddressCopies|
      ensures BillingAddressCopies[i].0 in OrderAttributeNames
    {
      assert OrderAttributeNames[2 + |CustomerAddressCopies| + |ShippingAddressCopies| + i]
          == Keys(BillingAddressCopies)[i];
    }
  }

  /** The order's attributes keep every key of the literal, in its order,
      whether or not the customer's data was fetched. */
  lemma OrderAttributesKeys(values: seq<Value>, customer: Dict<Value>, shippingAddressName: Value)
    requires |values| == |OrderAttributeNames|
    requires CustomerData(Entries(OrderAttributeNames, values), customer, shippingAddressName).Success?
    ensures Keys(CustomerData(Entries(OrderAttributeNames, values), customer, shippingAddressName).value)
         == OrderAttributeNames
  {
    OrderTargetsPresent();
    var attributes := Entries(OrderAttributeNames, values);
    var name := CustomerAddressName(customer).value;
    var named := Put(attributes, "customer_address_name", name);
    CopyFromKeys(named, customer, CustomerAddressCopies);
    var withCustomer := CopyFrom(named, customer, CustomerAddressCopies).value;
    var withShipping := withCustomer;
    if shippingAddressName == Null {
      var shippingNamed := Put(withCustomer, "shipping_address_name", name);
      CopyFromKeys(shippingNamed, customer, ShippingAddressCopies);
      withShipping := CopyFrom(shippingNamed, customer, ShippingAddressCopies).value;
    }
    CopyFromKeys(withShipping, customer, BillingAddressCopies);
  }

  /** With the customer's data fetched, the customer address name is the
      customer's address name, or its name when that is `None`; the shipping
      name gets the same value only when no shipping name was given. */
  lemma FetchedAddressNames(attributes: Dict<Value>, customer: Dict<Value>, shippingAddressName: Value)
    requires CustomerData(attributes, customer, shippingAddressName).Success?
    ensures Get(CustomerData(attributes, customer, shippingAddressName).value, "customer_address_name") ==
      if Get(customer, "address_name") == Some(Null) then Get(customer, "name") else Get(customer, "address_name")
    ensures shippingAddressName == Null ==>
      Get(CustomerData(attributes, customer, shippingAddressName).value, "shipping_address_name") ==
        if Get(customer, "address_name") == Some(Null) then Get(customer, "name") else Get(customer, "address_name")
    ensures shippingAddressName != Null ==>
      Get(CustomerData(attributes, customer, shippingAddressName).value, "shipping_address_name") ==
        Get(attributes, "shipping_address_name")
  {
    NamesNotCopied();
    CustomerDataGet(attributes, customer, shippingAddressName, "customer_address_name");
    CustomerDataGet(attributes, customer, shippingAddressName, "shipping_address_name");
  }
}
