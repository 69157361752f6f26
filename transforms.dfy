/**
 * `need_mix`: whether a list of transform configurations names one of the
 * transforms that need a second sample.
 */
module Transforms {

  /** A value in a transform configuration: a string, or anything else
      (a number, a list, a nested configuration), which never equals a name. */
  datatype Value = Str(s: string) | Other

  /** One transform configuration, a string-keyed dictionary. */
  type TransformConfig = map<string, Value>

  /** `MIX_NEED`. */
  const MixNeed: seq<string> := ["Mix_Up", "copypaste", "RMosaic"]

  predicate IsMixName(v: Value) {
    v.Str? && v.s in MixNeed
  }

  /** The inner loop: some key of `dic` maps to a mixing transform's name. */
  predicate HasMixValue(dic: TransformConfig) {
    exists k :: k in dic && IsMixName(dic[k])
  }

  /** `need_mix(trans_list)`, scanning the list from the front and stopping
      at the first configuration that names a mixing transform. */
  function NeedMix(transList: seq<TransformConfig>): (r: bool)
    ensures r <==> exists i, k :: 0 <= i < |transList| && k in transList[i] && IsMixName(transList[i][k])
    ensures transList == [] ==> !r
  {
    if transList == [] then false
    else if HasMixValue(transList[0]) then true
    else
      var rest := NeedMix(transList[1..]);
      assert forall i :: 1 <= i < |transList| ==> transList[i] == transList[1..][i - 1];
      rest
  }

  /** `need_mix` over a concatenation of two lists. */
  lemma {:induction false} NeedMixAppend(a: seq<TransformConfig>, b: seq<TransformConfig>)
    ensures NeedMix(a + b) <==> NeedMix(a) || NeedMix(b)
  {
    if a == [] {
      assert a + b == b;
    } else {
      assert (a + b)[1..] == a[1..] + b;
      NeedMixAppend(a[1..], b);
    }
  }

  /** A configuration whose `type` names `RMosaic` makes any list holding it
      need a second sample. */
  lemma MosaicNeedsMix(before: seq<TransformConfig>, after: seq<TransformConfig>, dic: TransformConfig)
    requires "type" in dic && dic["type"] == Str("RMosaic")
    ensures NeedMix(before + [dic] + after)
  {
    var ts := before + [dic] + after;
    assert ts[|before|] == dic;
    assert IsMixName(ts[|before|]["type"]);
  }
}
