/** Canonical ids of tool calls (codex_shim/tool_translate.py). */
module ToolIds {
  import opened Common

  /** What follows the `call_`, `fc_` or `fc_call_` prefix of a raw id, "0" when nothing does. */
  function Suffix(raw: string): string {
    var token := OrElse(Strip(raw), "0");
    if "call_" <= token then OrElse(token[5..], "0")
    else if "fc_" <= token then
      var rest := OrElse(token[3..], "0");
      if "call_" <= rest then OrElse(rest[5..], "0") else rest
    else token
  }

  /** `responses_function_call_ids`: the item id and the call id. */
  function FunctionCallIds(raw: string): (string, string) {
    ("fc_" + Suffix(raw), CallId(raw))
  }

  function CallId(raw: string): string {
    "call_" + Suffix(raw)
  }

  lemma RightStripEnds(s: string)
    ensures RightStrip(s) <= s
    ensures RightStrip(s) == "" || !IsSpace(RightStrip(s)[|RightStrip(s)| - 1])
  {
  }

  lemma StripEnds(s: string)
    ensures Strip(s) == "" || !IsSpace(Strip(s)[|Strip(s)| - 1])
    ensures Strip(s) == "" || !IsSpace(Strip(s)[0])
  {
    RightStripEnds(LeftStrip(s));
    LeftStripStarts(s);
  }

  lemma LeftStripStarts(s: string)
    ensures LeftStrip(s) == "" || !IsSpace(LeftStrip(s)[0])
  {
  }

  /** A string that starts and ends with visible characters is stripped already. */
  lemma StripFixed(s: string)
    requires s == "" || (!IsSpace(s[0]) && !IsSpace(s[|s| - 1]))
    ensures Strip(s) == s
  {
  }

  lemma SuffixEnds(raw: string)
    ensures Suffix(raw) != "" && !IsSpace(Suffix(raw)[|Suffix(raw)| - 1])
  {
    StripEnds(raw);
  }

  /** Canonicalising a canonical call id changes nothing. */
  lemma CanonicalIsFixed(raw: string)
    ensures CallId(CallId(raw)) == CallId(raw)
    ensures FunctionCallIds(CallId(raw)) == FunctionCallIds(raw)
  {
    SuffixOfPrefixed("call_", raw);
  }

  /** A canonical item id leads back to the same ids exactly when the suffix does not itself look
      like a call id: `call_call_x` is the item `fc_call_x`, which reads as `x`. */
  lemma ItemIdLeadsBack(raw: string)
    ensures FunctionCallIds(FunctionCallIds(raw).0) == FunctionCallIds(raw) <==> !("call_" <= Suffix(raw))
  {
    SuffixOfPrefixed("fc_", raw);
    var suffix := Suffix(raw);
    var item := "fc_" + suffix;
    if "call_" <= suffix {
      assert Suffix(item) == OrElse(suffix[5..], "0");
      assert |FunctionCallIds(item).0| != |item|;
    }
  }

  /** A call id with the prefix and without outer spaces stays as it is, so that two of them stay apart; an id
      without a prefix gets the prefix, and one with the prefix of an item id has it replaced. */
  lemma {:induction false} PrefixIsNormal(raw: string)
    requires raw != "" && !IsSpace(raw[0]) && !IsSpace(raw[|raw| - 1])
    ensures "call_" < raw ==> CallId(raw) == raw
    ensures "fc_" < raw && !("fc_call_" <= raw) ==> CallId(raw) == "call_" + raw[3..]
    ensures "fc_call_" < raw ==> CallId(raw) == raw[3..]
    ensures !("call_" <= raw) && !("fc_" <= raw) ==> CallId(raw) == "call_" + raw
  {
    StripFixed(raw);
    if "call_" <= raw {
      assert raw == "call_" + raw[5..] && raw[0] == 'c';
    } else if "fc_" <= raw {
      assert raw == "fc_" + raw[3..];
      if "call_" <= raw[3..] {
        assert raw[3..] == "call_" + raw[3..][5..];
        assert "fc_call_" == "fc_" + "call_";
      }
    }
  }

  /** The item made for `call_call_x` leads to `x`. */
  lemma {:induction false} DoubledPrefixExample()
    ensures FunctionCallIds("call_call_x") == ("fc_call_x", "call_call_x")
    ensures FunctionCallIds("fc_call_x") == ("fc_x", "call_x")
  {
    var doubled, item := "call_call_x", "fc_call_x";
    StripFixed(doubled);
    StripFixed(item);
    assert doubled[5..] == "call_x" && item[3..] == "call_x" && "call_x"[5..] == "x";
    assert Suffix(doubled) == "call_x";
    assert "fc_" + "call_x" == item && "call_" + "call_x" == doubled;
    assert item[0] == 'f' && "call_"[0] == 'c';
    assert Suffix(item) == "x";
    assert "fc_" + "x" == "fc_x" && "call_" + "x" == "call_x";
  }

  lemma SuffixOfPrefixed(prefix: string, raw: string)
    requires prefix == "call_" || prefix == "fc_"
    ensures Strip(prefix + Suffix(raw)) == prefix + Suffix(raw)
    ensures prefix == "call_" ==> Suffix(prefix + Suffix(raw)) == Suffix(raw)
    ensures prefix == "fc_" && !("call_" <= Suffix(raw)) ==> Suffix(prefix + Suffix(raw)) == Suffix(raw)
  {
    var suffix := Suffix(raw);
    var whole := prefix + suffix;
    SuffixEnds(raw);
    assert whole[0] == prefix[0] && whole[|whole| - 1] == suffix[|suffix| - 1];
    StripFixed(whole);
    assert prefix <= whole && whole[|prefix|..] == suffix;
    assert prefix == "fc_" ==> whole[0] == 'f' && !("call_" <= whole);
  }
}
