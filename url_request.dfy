/** The URL-request validator: a chain of guards that reject theme variables,
    URLs with a scheme, template interpolations and externals, before the
    decision is handed to loader-utils' own `isUrlRequest`. Each regular
    expression of the source is stated as a declarative predicate and
    computed by a scanner proved equal to it. */
module UrlRequest {
  import opened Common
  import opened JsValues

  /** An entry of `externals`: a string compared for equality, a RegExp (known
      by its test), or any other value, which never matches. */
  datatype External = StringExternal(name: string) | RegExpExternal(test: string -> bool) | OtherExternal

  predicate IdentStart(c: char) {
    ('A' <= c <= 'Z') || ('a' <= c <= 'z') || c == '_' || c == '$'
  }

  predicate IdentPart(c: char) {
    IdentStart(c) || ('0' <= c <= '9')
  }

  /** `/^@[A-Za-z_$][A-Za-z0-9_$]*$/`: a theme variable. */
  predicate IsThemeVariable(s: string) {
    |s| >= 2 && s[0] == '@' && IdentStart(s[1]) && forall i :: 2 <= i < |s| ==> IdentPart(s[i])
  }

  /** `/^.+:\/\//`: at least one character, none a line terminator, then `://`. */
  ghost predicate HasSchemePrefix(s: string) {
    exists i :: 1 <= i && OccursAt(s, "://", i) && forall j :: 0 <= j < i ==> !LineTerminator(s[j])
  }

  /** Scans for `://` at index `i` or later, knowing `s[..i-1]` holds no line terminator. */
  function SchemeFrom(s: string, i: nat): (r: bool)
    requires 1 <= i
    requires forall j :: 0 <= j < i - 1 && j < |s| ==> !LineTerminator(s[j])
    ensures r <==> exists k :: i <= k && OccursAt(s, "://", k) && forall j :: 0 <= j < k ==> !LineTerminator(s[j])
    decreases |s| - i
  {
    if i + 3 > |s| then
      false
    else if LineTerminator(s[i - 1]) then
      assert LineTerminator(s[i - 1]);
      false
    else if s[i..i + 3] == "://" then
      assert OccursAt(s, "://", i);
      true
    else
      SchemeFrom(s, i + 1)
  }

  /** `{{` at `p` and `}}` at `q` delimit a match of `/\{\{((?:.|\n|\r)+?)\}\}(?!})/`:
      the text between them is non-empty and holds neither U+2028 nor U+2029
      (the only characters that `.`, `\n` and `\r` all miss), and the `}}` is not
      followed by another `}`. */
  predicate MustacheAt(s: string, p: int, q: int) {
    && OccursAt(s, "{{", p)
    && p + 3 <= q
    && OccursAt(s, "}}", q)
    && (q + 2 == |s| || s[q + 2] != '}')
    && forall k :: p + 2 <= k < q ==> !IsParagraphSeparator(s[k])
  }

  predicate IsParagraphSeparator(c: char) {
    c == '\U{2028}' || c == '\U{2029}'
  }

  ghost predicate HasMustache(s: string) {
    exists p, q :: MustacheAt(s, p, q)
  }

  /** Scans for the closing `}}` of the `{{` at `p`, from index `q`. */
  function CloseFrom(s: string, p: nat, q: nat): (r: bool)
    requires OccursAt(s, "{{", p) && p + 3 <= q <= |s| + 1
    requires forall k :: p + 2 <= k < q - 1 ==> !IsParagraphSeparator(s[k])
    ensures r <==> exists q' :: q <= q' && MustacheAt(s, p, q')
    decreases |s| - q
  {
    if q + 2 > |s| then
      assert forall q' :: q <= q' ==> !OccursAt(s, "}}", q');
      false
    else if IsParagraphSeparator(s[q - 1]) then
      assert forall q' :: q <= q' ==> !MustacheAt(s, p, q') by {
        forall q' | q <= q' ensures !MustacheAt(s, p, q') {
          assert p + 2 <= q - 1 < q';
        }
      }
      false
    else if s[q..q + 2] == "}}" && (q + 2 == |s| || s[q + 2] != '}') then
      assert MustacheAt(s, p, q);
      true
    else
      var r := CloseFrom(s, p, q + 1);
      assert !MustacheAt(s, p, q);
      r
  }

  /** Scans for a `{{ … }}` match starting at index `p` or later. */
  function MustacheFrom(s: string, p: nat): (r: bool)
    ensures r <==> exists p', q :: p <= p' && MustacheAt(s, p', q)
    decreases |s| - p
  {
    if p + 2 > |s| then
      assert forall p', q :: p <= p' ==> !MustacheAt(s, p', q);
      false
    else if s[p..p + 2] == "{{" && CloseFrom(s, p, p + 3) then
      true
    else
      var r := MustacheFrom(s, p + 1);
      assert s[p..p + 2] == "{{" ==> !CloseFrom(s, p, p + 3);
      assert forall q :: !MustacheAt(s, p, q);
      r
  }

  /** `externals.some(...)`: a string external equal to the url, or a RegExp external matching it. */
  predicate MatchesExternal(url: string, externals: seq<External>) {
    exists i :: 0 <= i < |externals| && match externals[i]
      case StringExternal(name) => name == url
      case RegExpExternal(test) => test(url)
      case OtherExternal => false
  }

  /** `isUrlRequest(url, root, externals)`; `isUrlRequestRaw` is loader-utils' own
      predicate, consulted only when no guard fires. */
  function IsUrlRequest(url: JsValue, root: JsValue, externals: Option<seq<External>>,
                        isUrlRequestRaw: (string, JsValue) -> bool): (r: bool)
    ensures r ==> url.Str? && url.s != ""
    ensures url.Str? && IsThemeVariable(url.s) ==> !r
    ensures url.Str? && HasSchemePrefix(url.s) ==> !r
    ensures url.Str? && HasMustache(url.s) ==> !r
    ensures url.Str? && externals.Some? && MatchesExternal(url.s, externals.value) ==> !r
    ensures url.Str? && url.s != "" && !IsThemeVariable(url.s) && !HasSchemePrefix(url.s) && !HasMustache(url.s)
            && !(externals.Some? && MatchesExternal(url.s, externals.value))
            ==> r == isUrlRequestRaw(url.s, root)
  {
    if !url.Str? || url.s == "" then false
    else
      var s := url.s;
      if IsThemeVariable(s) then false
      else if SchemeFrom(s, 1) then false
      else if MustacheFrom(s, 0) then false
      else if externals.Some? && MatchesExternal(s, externals.value) then false
      else isUrlRequestRaw(s, root)
  }
}
