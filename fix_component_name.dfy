/** The web-mode template rule that escapes a component whose name clashes
    with a native or built-in HTML tag: such a component is registered under
    the prefixed name `mpx-com-<tag>`, and the rule rewrites the element's
    tag to that name when it is registered. */
module FixComponentName {
  import opened Common

  const EscapePrefix := "mpx-com-"

  /** The only mode the rule is declared for. */
  const SupportedModes: seq<string> := ["web"]

  /** The escaped name of a tag: the prefix followed by the original tag. */
  function CandidateTag(tag: string): (r: string)
    ensures StartsWith(r, EscapePrefix) && r[|EscapePrefix|..] == tag
    ensures |r| == |tag| + 8
  {
    EscapePrefix + tag
  }

  /** `data.usingComponents || []`, as a list of names. */
  function Registered(usingComponents: Option<seq<string>>): seq<string> {
    if usingComponents.Some? then usingComponents.value else []
  }

  /** The tag an element ends up with. */
  function EscapedTag(tag: string, usingComponents: Option<seq<string>>): string {
    var candidate := CandidateTag(tag);
    if candidate in Registered(usingComponents) then candidate else tag
  }

  /** The tag changes exactly when the escaped name is registered, and then
      becomes that name; a missing component list never changes it. */
  lemma EscapedTagSpec(tag: string, usingComponents: Option<seq<string>>)
    ensures EscapedTag(tag, usingComponents) != tag <==> CandidateTag(tag) in Registered(usingComponents)
    ensures EscapedTag(tag, usingComponents) != tag ==> EscapedTag(tag, usingComponents) == CandidateTag(tag)
    ensures usingComponents.None? ==> EscapedTag(tag, usingComponents) == tag
    ensures EscapedTag(tag, usingComponents) == tag || EscapedTag(tag, usingComponents) in Registered(usingComponents)
  {
    var candidate := CandidateTag(tag);
    assert |candidate| != |tag|;
  }

  /** Distinct tags never escape to the same registered name. */
  lemma CandidateInjective(a: string, b: string)
    ensures CandidateTag(a) == CandidateTag(b) ==> a == b
  {
    if CandidateTag(a) == CandidateTag(b) {
      assert a == CandidateTag(a)[|EscapePrefix|..];
    }
  }

  /** The rule's `supportedModes` and `test` gate: web mode, and a tag that is
      a native HTML tag or a built-in one. */
  predicate RuleApplies(mode: string, tag: string, isOriginTag: string -> bool, isBuildInTag: string -> bool) {
    mode in SupportedModes && (isOriginTag(tag) || isBuildInTag(tag))
  }

  /** The tag an element ends up with when the gated rule is applied. */
  function RuledTag(mode: string, tag: string, usingComponents: Option<seq<string>>,
                    isOriginTag: string -> bool, isBuildInTag: string -> bool): string {
    if RuleApplies(mode, tag, isOriginTag, isBuildInTag) then EscapedTag(tag, usingComponents) else tag
  }

  /** Applying the gated rule a second time changes nothing, provided the
      escaped name is itself neither a native nor a built-in tag. */
  lemma RuleIdempotent(mode: string, tag: string, usingComponents: Option<seq<string>>,
                       isOriginTag: string -> bool, isBuildInTag: string -> bool)
    requires !isOriginTag(CandidateTag(tag)) && !isBuildInTag(CandidateTag(tag))
    ensures var once := RuledTag(mode, tag, usingComponents, isOriginTag, isBuildInTag);
            RuledTag(mode, once, usingComponents, isOriginTag, isBuildInTag) == once
  {
    var once := RuledTag(mode, tag, usingComponents, isOriginTag, isBuildInTag);
    if once != tag {
      EscapedTagSpec(tag, usingComponents);
      assert once == CandidateTag(tag);
      assert !RuleApplies(mode, once, isOriginTag, isBuildInTag);
    }
  }

  /** Without the gate the rewrite is not idempotent: when both `mpx-com-div`
      and `mpx-com-mpx-com-div` are registered, `div` is escaped twice. */
  lemma WebNotIdempotent()
    ensures var uc := Some(["mpx-com-div", "mpx-com-mpx-com-div"]);
            EscapedTag("div", uc) == "mpx-com-div"
            && EscapedTag(EscapedTag("div", uc), uc) == "mpx-com-mpx-com-div"
  {
    var uc := Some(["mpx-com-div", "mpx-com-mpx-com-div"]);
    assert CandidateTag("div") == "mpx-com-div";
    assert CandidateTag("mpx-com-div") == "mpx-com-mpx-com-div";
  }

  /** A template element as the rule sees it; only the tag is touched. */
  class Element {
    var tag: string
    var attrs: seq<(string, string)>

    constructor (tag: string, attrs: seq<(string, string)>)
      ensures this.tag == tag && this.attrs == attrs
    {
      this.tag := tag;
      this.attrs := attrs;
    }
  }

  /** `web(el, data)`: rewrites `el.tag` in place and returns the same element. */
  method Web(el: Element, usingComponents: Option<seq<string>>) returns (r: Element)
    modifies el`tag
    ensures r == el
    ensures el.tag == EscapedTag(old(el.tag), usingComponents)
  {
    var newTag := CandidateTag(el.tag);
    var registered := Registered(usingComponents);
    if newTag in registered {
      el.tag := newTag;
    }
    r := el;
  }

  /** The rule as the template compiler applies it: only when the gate holds. */
  method ApplyRule(el: Element, mode: string, usingComponents: Option<seq<string>>,
                   isOriginTag: string -> bool, isBuildInTag: string -> bool) returns (r: Element)
    modifies el`tag
    ensures r == el
    ensures el.tag == RuledTag(mode, old(el.tag), usingComponents, isOriginTag, isBuildInTag)
  {
    r := el;
    if RuleApplies(mode, el.tag, isOriginTag, isBuildInTag) {
      r := Web(el, usingComponents);
    }
  }
}
