/**
 * The `$jsonSchema` validator that `database.py` installs on the
 * `stock_crypto_prices` collection. The schema is kept as data, as the
 * source keeps it as a constant dict, and a generic validator gives it
 * its meaning; `PriceSchemaMeaning` spells that meaning out field by field.
 */
module Schema {

  /** The asset kinds of the `type` enum. */
  datatype AssetType = Stock | Crypto

  /** The string a document stores in its `type` field. */
  function TypeTag(k: AssetType): (tag: string)
    ensures tag in ["stock", "crypto"]
    ensures tag == "stock" <==> k == Stock
  {
    match k
    case Stock => "stock"
    case Crypto => "crypto"
  }

  /** BSON values a document field may hold (the subset this collection meets). */
  datatype Bson =
    | BString(str: string)
    | BDouble(dbl: real)
    | BInt(integer: int)
    | BBool(flag: bool)
    | BDate(millis: int)
    | BNull
    | BObjectId(oid: nat)

  /** A BSON document: field name to value. */
  type Document = map<string, Bson>

  /** The names `bsonType` accepts. */
  datatype BsonType = StringType | DoubleType | IntType | BoolType | DateType | NullType | ObjectIdType

  function TypeOf(v: Bson): BsonType
  {
    match v
    case BString(_) => StringType
    case BDouble(_) => DoubleType
    case BInt(_) => IntType
    case BBool(_) => BoolType
    case BDate(_) => DateType
    case BNull => NullType
    case BObjectId(_) => ObjectIdType
  }

  /** A `properties` entry: either `{"bsonType": t}` or `{"enum": [...]}`. */
  datatype Rule = OfType(bsonType: BsonType) | OneOf(values: seq<Bson>)

  /** An object schema: the `required` list and the `properties` table. */
  datatype JsonSchema = JsonSchema(required: seq<string>, properties: map<string, Rule>)

  /** `price_schema` (database.py). `description` strings carry no constraint and are dropped. */
  const PRICE_SCHEMA: JsonSchema := JsonSchema(
    ["symbol", "price", "timestamp", "type"],
    map[
      "symbol" := OfType(StringType),
      "price" := OfType(DoubleType),
      "timestamp" := OfType(DateType),
      "type" := OneOf([BString("stock"), BString("crypto")]),
      "volume" := OfType(DoubleType),
      "change_24h" := OfType(DoubleType)
    ])

  predicate Satisfies(v: Bson, rule: Rule)
  {
    match rule
    case OfType(t) => TypeOf(v) == t
    case OneOf(vs) => v in vs
  }

  /**
   * What the server checks on insert: every required field is present, and
   * every field that has a rule and is present obeys it. Fields without a
   * rule (such as `_id`) are allowed, since the schema does not set
   * `additionalProperties`.
   */
  predicate Validates(schema: JsonSchema, doc: Document)
  {
    && (forall f :: f in schema.required ==> f in doc)
    && (forall f :: f in schema.properties && f in doc ==> Satisfies(doc[f], schema.properties[f]))
  }

  /** The price schema read field by field. */
  predicate IsPriceDocument(doc: Document)
  {
    && "symbol" in doc && doc["symbol"].BString?
    && "price" in doc && doc["price"].BDouble?
    && "timestamp" in doc && doc["timestamp"].BDate?
    && "type" in doc && doc["type"] in [BString("stock"), BString("crypto")]
    && ("volume" in doc ==> doc["volume"].BDouble?)
    && ("change_24h" in doc ==> doc["change_24h"].BDouble?)
  }

  /** A document passes the installed validator exactly when it has the shape above. */
  lemma PriceSchemaMeaning(doc: Document)
    ensures Validates(PRICE_SCHEMA, doc) <==> IsPriceDocument(doc)
  {
  }

  /** A document whose `type` is outside the enum is rejected, whatever else it holds. */
  lemma TypeOutsideEnumRejected(doc: Document)
    requires "type" in doc && doc["type"] != BString("stock") && doc["type"] != BString("crypto")
    ensures !Validates(PRICE_SCHEMA, doc)
  {
    PriceSchemaMeaning(doc);
  }
}
