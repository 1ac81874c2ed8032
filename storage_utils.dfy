/**
 * The configuration store: `localStorage` as a string-to-string map, the
 * generic typed read with a default, the swallowing write, the six keys,
 * their defaults, and the per-setting getters and setters. `parseFloat`,
 * `JSON.parse` (which may throw), `JSON.stringify` and `String(number)` are
 * parameters; a read or write that throws is a boolean parameter.
 */
module StorageUtils {
  import opened Common
  import opened FeeSchedule

  const MANUFACTURING_SETTINGS_KEY: string := "goldManufacturingSettings"
  const BUY_DISCOUNT_KEY: string := "buyDiscount"
  const FLUCTUATION_RANGE_KEY: string := "fluctuationRange"
  const FIXED_MANUFACTURING_FEE_KEY: string := "fixedManufacturingFee"
  const CR_NUMBER_KEY: string := "crNumber"
  const VAT_NUMBER_KEY: string := "vatNumber"

  const DEFAULT_BUY_DISCOUNT: real := 20.0
  const DEFAULT_FLUCTUATION_RANGE: real := 1.0
  const DEFAULT_FIXED_MANUFACTURING_FEE: real := 500.0
  const DEFAULT_CR_NUMBER: string := "2053175911"
  const DEFAULT_VAT_NUMBER: string := "2053175911"

  /** The `type` argument of the generic getter. */
  datatype ValueType = NumberType | ObjectType | StringType

  /** A value read from, or written to, the store. */
  datatype StoredValue = Number(n: JsNumber) | Object(settings: Settings) | Text(s: string)

  /** `JSON.parse` of a stored schedule: `None` when it throws. */
  type JsonParser = string -> Option<Settings>

  /** `getStorageValue`: the default when the read throws or the key is
      absent; otherwise `parseFloat` of the text for numbers (NaN stays
      NaN), the parsed object for objects (the default when parsing
      throws), and the text itself for strings. */
  function GetStorageValue(items: map<string, string>, key: string, default: StoredValue, t: ValueType,
                           parseFloat: string -> JsNumber, parseJson: JsonParser, readFails: bool): (v: StoredValue)
    ensures v == default || TypeOf(v) == t
    ensures readFails || key !in items ==> v == default
  {
    if readFails || key !in items then default
    else match t
      case NumberType => Number(parseFloat(items[key]))
      case ObjectType =>
        (match parseJson(items[key])
         case Some(s) => Object(s)
         case None => default)
      case StringType => Text(items[key])
  }

  /** The text `setStorageValue` stores: `JSON.stringify` for objects,
      `String(value)` otherwise. */
  function Serialize(value: StoredValue, stringify: Settings -> string, showNumber: JsNumber -> string): string {
    match value
    case Object(s) => stringify(s)
    case Number(n) => showNumber(n)
    case Text(s) => s
  }

  /** The type a value is stored and read back as. */
  function TypeOf(value: StoredValue): ValueType {
    match value
    case Number(_) => NumberType
    case Object(_) => ObjectType
    case Text(_) => StringType
  }

  /** Writing a value and reading it back with its own type returns it,
      whenever the parser inverts the serializer on it; for strings that
      always holds. */
  lemma SetThenGet(items: map<string, string>, key: string, value: StoredValue, default: StoredValue,
                   stringify: Settings -> string, showNumber: JsNumber -> string,
                   parseFloat: string -> JsNumber, parseJson: JsonParser)
    requires value.Number? ==> parseFloat(showNumber(value.n)) == value.n
    requires value.Object? ==> parseJson(stringify(value.settings)) == Some(value.settings)
    ensures GetStorageValue(items[key := Serialize(value, stringify, showNumber)], key, default, TypeOf(value),
                            parseFloat, parseJson, false) == value
  {
  }

  /** A stored number that does not parse reads back as NaN, not as the
      default. */
  lemma UnparsableNumberIsNaN(items: map<string, string>, key: string, default: StoredValue,
                              parseFloat: string -> JsNumber, parseJson: JsonParser)
    requires key in items && parseFloat(items[key]).NaN?
    ensures GetStorageValue(items, key, default, NumberType, parseFloat, parseJson, false) == Number(NaN)
  {
  }

  /** Writing one key leaves every read of another key as it was. */
  lemma WriteKeepsOtherKeys(items: map<string, string>, key: string, text: string, other: string, default: StoredValue,
                            t: ValueType, parseFloat: string -> JsNumber, parseJson: JsonParser, readFails: bool)
    requires other != key
    ensures GetStorageValue(items[key := text], other, default, t, parseFloat, parseJson, readFails)
         == GetStorageValue(items, other, default, t, parseFloat, parseJson, readFails)
  {
  }

  /** The six settings live under six different keys. */
  lemma KeysDistinct()
    ensures var keys := [MANUFACTURING_SETTINGS_KEY, BUY_DISCOUNT_KEY, FLUCTUATION_RANGE_KEY,
                         FIXED_MANUFACTURING_FEE_KEY, CR_NUMBER_KEY, VAT_NUMBER_KEY];
      forall i, j :: 0 <= i < j < |keys| ==> keys[i] != keys[j]
  {
    var keys := [MANUFACTURING_SETTINGS_KEY, BUY_DISCOUNT_KEY, FLUCTUATION_RANGE_KEY,
                 FIXED_MANUFACTURING_FEE_KEY, CR_NUMBER_KEY, VAT_NUMBER_KEY];
    assert keys[0][0] == 'g' && keys[1][0] == 'b' && keys[2][0] == 'f';
    assert keys[3][0] == 'f' && keys[4][0] == 'c' && keys[5][0] == 'v';
    assert keys[2][1] != keys[3][1];
  }

  /** The number getters never parse JSON. */
  function NoJson(): JsonParser {
    (s: string) => None
  }

  class Store {
    var items: map<string, string>

    constructor (saved: map<string, string>)
      ensures items == saved
    {
      items := saved;
    }

    function GetNumber(key: string, default: real, parseFloat: string -> JsNumber, readFails: bool): (n: JsNumber)
      reads this
      ensures readFails || key !in items ==> n == Finite(default)
      ensures !readFails && key in items ==> n == parseFloat(items[key])
    {
      GetStorageValue(items, key, Number(Finite(default)), NumberType, parseFloat, NoJson(), readFails).n
    }

    function GetText(key: string, default: string, readFails: bool): (s: string)
      reads this
      ensures readFails || key !in items ==> s == default
      ensures !readFails && key in items ==> s == items[key]
    {
      GetStorageValue(items, key, Text(default), StringType, _ => NaN, NoJson(), readFails).s
    }

    /** `getManufacturingSettings(defaultSettings)` */
    function GetManufacturingSettings(defaultSettings: Settings, parseJson: JsonParser, readFails: bool): (s: Settings)
      reads this
      ensures readFails || MANUFACTURING_SETTINGS_KEY !in items ==> s == defaultSettings
      ensures !readFails && MANUFACTURING_SETTINGS_KEY in items ==>
        s == parseJson(items[MANUFACTURING_SETTINGS_KEY]).GetOr(defaultSettings)
    {
      GetStorageValue(items, MANUFACTURING_SETTINGS_KEY, Object(defaultSettings), ObjectType, _ => NaN, parseJson, readFails).settings
    }

    /** `getBuyDiscount`, default 20 */
    function GetBuyDiscount(parseFloat: string -> JsNumber, readFails: bool): JsNumber
      reads this
    {
      GetNumber(BUY_DISCOUNT_KEY, DEFAULT_BUY_DISCOUNT, parseFloat, readFails)
    }

    /** `getFluctuationRange`, default 1 */
    function GetFluctuationRange(parseFloat: string -> JsNumber, readFails: bool): JsNumber
      reads this
    {
      GetNumber(FLUCTUATION_RANGE_KEY, DEFAULT_FLUCTUATION_RANGE, parseFloat, readFails)
    }

    /** `getFixedManufacturingFee`, default 500 */
    function GetFixedManufacturingFee(parseFloat: string -> JsNumber, readFails: bool): JsNumber
      reads this
    {
      GetNumber(FIXED_MANUFACTURING_FEE_KEY, DEFAULT_FIXED_MANUFACTURING_FEE, parseFloat, readFails)
    }

    /** `getCRNumber`, default "2053175911" */
    function GetCRNumber(readFails: bool): string
      reads this
    {
      GetText(CR_NUMBER_KEY, DEFAULT_CR_NUMBER, readFails)
    }

    /** `getVATNumber`, default "2053175911" */
    function GetVATNumber(readFails: bool): string
      reads this
    {
      GetText(VAT_NUMBER_KEY, DEFAULT_VAT_NUMBER, readFails)
    }

    /** On an empty (or unreadable) store every getter returns its own
        default. */
    lemma EmptyStoreDefaults(defaultSettings: Settings, parseFloat: string -> JsNumber, parseJson: JsonParser, readFails: bool)
      requires items == map[] || readFails
      ensures GetManufacturingSettings(defaultSettings, parseJson, readFails) == defaultSettings
      ensures GetBuyDiscount(parseFloat, readFails) == Finite(20.0)
      ensures GetFluctuationRange(parseFloat, readFails) == Finite(1.0)
      ensures GetFixedManufacturingFee(parseFloat, readFails) == Finite(500.0)
      ensures GetCRNumber(readFails) == "2053175911" && GetVATNumber(readFails) == "2053175911"
    {
    }

    /** Each getter reads its own key: a present value is parsed (numbers)
        or returned as stored (strings). */
    lemma GettersReadOwnKeys(parseFloat: string -> JsNumber)
      ensures BUY_DISCOUNT_KEY in items ==> GetBuyDiscount(parseFloat, false) == parseFloat(items[BUY_DISCOUNT_KEY])
      ensures FLUCTUATION_RANGE_KEY in items ==> GetFluctuationRange(parseFloat, false) == parseFloat(items[FLUCTUATION_RANGE_KEY])
      ensures FIXED_MANUFACTURING_FEE_KEY in items ==> GetFixedManufacturingFee(parseFloat, false) == parseFloat(items[FIXED_MANUFACTURING_FEE_KEY])
      ensures CR_NUMBER_KEY in items ==> GetCRNumber(false) == items[CR_NUMBER_KEY]
      ensures VAT_NUMBER_KEY in items ==> GetVATNumber(false) == items[VAT_NUMBER_KEY]
    {
    }

    /** `setStorageValue`: stores the serialized value under the key; a
        write that throws (`writeFails`) is swallowed and stores nothing. */
    method SetStorageValue(key: string, value: StoredValue, stringify: Settings -> string, showNumber: JsNumber -> string, writeFails: bool)
      modifies this
      ensures items == if writeFails then old(items) else old(items)[key := Serialize(value, stringify, showNumber)]
    {
      if !writeFails {
        items := items[key := Serialize(value, stringify, showNumber)];
      }
    }

    /** `setManufacturingSettings` */
    method SetManufacturingSettings(settings: Settings, stringify: Settings -> string, writeFails: bool)
      modifies this
      ensures items == if writeFails then old(items) else old(items)[MANUFACTURING_SETTINGS_KEY := stringify(settings)]
      ensures forall parseJson: JsonParser, defaultSettings: Settings ::
        !writeFails && parseJson(stringify(settings)) == Some(settings) ==>
          GetManufacturingSettings(defaultSettings, parseJson, false) == settings
    {
      SetStorageValue(MANUFACTURING_SETTINGS_KEY, Object(settings), stringify, _ => "", writeFails);
    }

    /** `setBuyDiscount`, given the form field's text, which `String` stores
        unchanged: a successful write reads back as that text parsed. */
    method SetBuyDiscount(value: string, writeFails: bool)
      modifies this
      ensures items == if writeFails then old(items) else old(items)[BUY_DISCOUNT_KEY := value]
      ensures forall parseFloat: string -> JsNumber :: !writeFails ==> GetBuyDiscount(parseFloat, false) == parseFloat(value)
    {
      SetStorageValue(BUY_DISCOUNT_KEY, Text(value), _ => "", _ => "", writeFails);
    }

    /** `setFluctuationRange`, given the form field's text. */
    method SetFluctuationRange(value: string, writeFails: bool)
      modifies this
      ensures items == if writeFails then old(items) else old(items)[FLUCTUATION_RANGE_KEY := value]
      ensures forall parseFloat: string -> JsNumber :: !writeFails ==> GetFluctuationRange(parseFloat, false) == parseFloat(value)
    {
      SetStorageValue(FLUCTUATION_RANGE_KEY, Text(value), _ => "", _ => "", writeFails);
    }

    /** `setFixedManufacturingFee`, given the form field's text. */
    method SetFixedManufacturingFee(value: string, writeFails: bool)
      modifies this
      ensures items == if writeFails then old(items) else old(items)[FIXED_MANUFACTURING_FEE_KEY := value]
      ensures forall parseFloat: string -> JsNumber :: !writeFails ==> GetFixedManufacturingFee(parseFloat, false) == parseFloat(value)
    {
      SetStorageValue(FIXED_MANUFACTURING_FEE_KEY, Text(value), _ => "", _ => "", writeFails);
    }

    /** `setCRNumber`: a successful write reads back unchanged. */
    method SetCRNumber(value: string, writeFails: bool)
      modifies this
      ensures items == if writeFails then old(items) else old(items)[CR_NUMBER_KEY := value]
      ensures !writeFails ==> GetCRNumber(false) == value
    {
      SetStorageValue(CR_NUMBER_KEY, Text(value), _ => "", _ => "", writeFails);
    }

    /** `setVATNumber`: a successful write reads back unchanged. */
    method SetVATNumber(value: string, writeFails: bool)
      modifies this
      ensures items == if writeFails then old(items) else old(items)[VAT_NUMBER_KEY := value]
      ensures !writeFails ==> GetVATNumber(false) == value
    {
      SetStorageValue(VAT_NUMBER_KEY, Text(value), _ => "", _ => "", writeFails);
    }
  }
}
