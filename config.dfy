/**
 * The connection configuration (`RequestConfig`): one mutable object that
 * every client shares by reference, and `Object.assign`, the in-place merge
 * of a `Partial<RequestConfig>` into it.
 */
module Config {
  import opened Options

  /** The values a configuration object holds at some moment. */
  datatype ConfigValue = ConfigValue(baseUrl: string, token: Option<string>, externalToken: Option<string>)

  /**
   * A `Partial<RequestConfig>`: None is a key that is absent. A present
   * token key may itself hold `undefined` (Some(None)), which
   * `Object.assign` copies like any other value.
   */
  datatype PartialConfig = PartialConfig(
    baseUrl: Option<string>,
    token: Option<Option<string>>,
    externalToken: Option<Option<string>>)

  const NoChanges := PartialConfig(None, None, None)

  /** The values after `Object.assign(target, p)` on a target holding `c`. */
  function Merge(c: ConfigValue, p: PartialConfig): (r: ConfigValue)
    ensures p.baseUrl.Some? ==> r.baseUrl == p.baseUrl.value
    ensures p.baseUrl.None? ==> r.baseUrl == c.baseUrl
    ensures p.token.Some? ==> r.token == p.token.value
    ensures p.token.None? ==> r.token == c.token
    ensures p.externalToken.Some? ==> r.externalToken == p.externalToken.value
    ensures p.externalToken.None? ==> r.externalToken == c.externalToken
  {
    ConfigValue(
      p.baseUrl.GetOr(c.baseUrl),
      p.token.GetOr(c.token),
      p.externalToken.GetOr(c.externalToken))
  }

  /** Merging the same partial twice is merging it once. */
  lemma MergeIdempotent(c: ConfigValue, p: PartialConfig)
    ensures Merge(Merge(c, p), p) == Merge(c, p)
  {
  }

  /** Merging an empty partial changes nothing. */
  lemma MergeNothing(c: ConfigValue)
    ensures Merge(c, NoChanges) == c
  {
  }

  /** A configuration object: a heap cell that clients hold by reference. */
  class RequestConfig {
    var baseUrl: string
    var token: Option<string>
    var externalToken: Option<string>

    function Value(): ConfigValue
      reads this
    {
      ConfigValue(baseUrl, token, externalToken)
    }

    constructor (v: ConfigValue)
      ensures Value() == v
    {
      baseUrl, token, externalToken := v.baseUrl, v.token, v.externalToken;
    }

    /** `Object.assign(this, p)`: each key present in `p` is overwritten in place. */
    method Assign(p: PartialConfig)
      modifies this
      ensures Value() == Merge(old(Value()), p)
    {
      if p.baseUrl.Some? {
        baseUrl := p.baseUrl.value;
      }
      if p.token.Some? {
        token := p.token.value;
      }
      if p.externalToken.Some? {
        externalToken := p.externalToken.value;
      }
    }

    /** `{ ...this }`: a new object with the same values. */
    method Copy() returns (c: RequestConfig)
      ensures fresh(c)
      ensures c.Value() == Value()
    {
      c := new RequestConfig(Value());
    }
  }
}
