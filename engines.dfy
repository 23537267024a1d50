/**
 * Library engines the tools call and that are not part of this model: the
 * JSON codec (RFC 8259) and Python's `re.sub`. Each is a parameter of the
 * operations that use it; the lemmas state what they assume of it.
 */
module Engines {
  import opened Wrappers
  import opened PyStrings
  import opened Values

  /**
   * `json.loads` (None stands for `json.JSONDecodeError`) and `json.dumps`
   * (with `ensure_ascii=False`, as the vendor formatter calls it).
   */
  datatype JsonCodec = JsonCodec(loads: string -> Option<Value>, dumps: Value -> string)

  /** What a correct JSON codec guarantees: decoding an encoding gives the value back, and an encoding is never blank. */
  ghost predicate LawfulJson(codec: JsonCodec)
  {
    forall v: Value {:trigger codec.dumps(v)} :: codec.loads(codec.dumps(v)) == Some(v) && !IsBlank(codec.dumps(v))
  }

  /** `re.sub(pattern, replacement, text)`; None stands for `re.error` (an invalid pattern or replacement). */
  type RegexSub = (string, string, string) -> Option<string>
}
