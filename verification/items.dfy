/** Scanned items and the field extractors the store applies to them. */
module Items {
  import opened Results

  /** An attribute value of a scanned item: `S` is a string, `N` a number kept
      as the decimal text the table returns, and every other tag (binary,
      boolean, list, map, sets, null) is `Other`. */
  datatype AttrValue = S(s: string) | N(n: string) | Other

  /** One scanned item: attribute name to value. */
  type Item = map<string, AttrValue>

  /** Conversion of the decimal text of an `N` attribute to a number, as done by
      the source's `parse()`; `None` is a rejected text. */
  type NumParser = string -> Option<real>

  /** Why the call panics. The first three are the `unwrap`s of a field
      extraction, the last two the `unwrap`s of the join in the second pass. */
  datatype Error =
    | MissingAttribute(name: string)
    | WrongType(name: string)
    | BadNumber(name: string)
    | NoCustomer(pk: string)
    | NoProducts(pk: string)

  predicate HasS(item: Item, key: string) {
    key in item && item[key].S?
  }

  predicate HasN(item: Item, key: string) {
    key in item && item[key].N?
  }

  predicate HasNum(parse: NumParser, item: Item, key: string) {
    HasN(item, key) && parse(item[key].n).Some?
  }

  /** The error of a tag check on `key`: the lookup fails first, the tag second. */
  function TagError(item: Item, key: string): Error {
    if key in item then WrongType(key) else MissingAttribute(key)
  }

  /** Reads the string stored under `key`. */
  function GetS(item: Item, key: string): (r: Result<string, Error>)
    ensures r.Success? <==> HasS(item, key)
    ensures r.Success? ==> item[key] == S(r.value)
    ensures r.Failure? ==> r.error == TagError(item, key)
  {
    if key !in item then Failure(MissingAttribute(key))
    else match item[key]
      case S(s) => Success(s)
      case _ => Failure(WrongType(key))
  }

  /** Reads the decimal text of the number stored under `key`, unparsed. */
  function GetN(item: Item, key: string): (r: Result<string, Error>)
    ensures r.Success? <==> HasN(item, key)
    ensures r.Success? ==> item[key] == N(r.value)
    ensures r.Failure? ==> r.error == TagError(item, key)
  {
    if key !in item then Failure(MissingAttribute(key))
    else match item[key]
      case N(n) => Success(n)
      case _ => Failure(WrongType(key))
  }

  /** Reads the number stored under `key` and parses its text. */
  function GetNum(parse: NumParser, item: Item, key: string): (r: Result<real, Error>)
    ensures r.Success? <==> HasNum(parse, item, key)
    ensures r.Success? ==> parse(item[key].n) == Some(r.value)
    ensures r.Failure? ==> r.error == (if HasN(item, key) then BadNumber(key) else TagError(item, key))
  {
    var text :- GetN(item, key);
    match parse(text)
    case Some(x) => Success(x)
    case None => Failure(BadNumber(key))
  }
}
