/** The loader request serialiser: each loader entry becomes an identifier
    (`loader`, `loader?options`, `loader??ident` or `loader?<json>`), and a
    request is the identifiers, each followed by `!`, then the resource. */
module StringifyLoaders {
  import opened Common

  /** A loader's `options`, by the JavaScript type the serialiser tests. */
  datatype LoaderOptions =
    | NoOptions                   // undefined, null, false, 0
    | StringOptions(text: string) // a string (the empty string is falsy)
    | ObjectOptions(json: string) // an object or array; `json` is its JSON.stringify text
    | OtherOptions                // a truthy number, `true`, a function, a symbol

  /** A loader entry `{ loader, options, ident }`; `ident` is "" when absent. */
  datatype Loader = Loader(loader: string, options: LoaderOptions, ident: string)

  const OptionsTypeError := "loader options must be string or object"

  /** `!data.options` is false. */
  predicate HasOptions(o: LoaderOptions) {
    match o
    case NoOptions => false
    case StringOptions(text) => text != ""
    case _ => true
  }

  /** `loaderToIdent`: the identifier of one loader, or the error it throws. */
  function LoaderToIdent(l: Loader): (r: Result<string>)
    ensures r.Err? <==> l.options.OtherOptions?
    ensures r.Err? ==> r.error == OptionsTypeError
    ensures r.Ok? ==> StartsWith(r.value, l.loader)
  {
    if !HasOptions(l.options) then Ok(l.loader)
    else match l.options
      case StringOptions(text) => Ok(l.loader + "?" + text)
      case OtherOptions => Err(OptionsTypeError)
      case ObjectOptions(json) =>
        if l.ident != "" then Ok(l.loader + "??" + l.ident)
        else Ok(l.loader + "?" + json)
  }

  /** The query a loader contributes, as a request parser reads it back. */
  function QueryOf(l: Loader): string {
    match l.options
    case NoOptions => ""
    case StringOptions(text) => text
    case ObjectOptions(json) => if l.ident != "" then "?" + l.ident else json
    case OtherOptions => ""
  }

  /** The text before the first `?` of an identifier, and the text after it. */
  function LoaderPart(id: string): string {
    if id == [] || id[0] == '?' then [] else [id[0]] + LoaderPart(id[1..])
  }

  function QueryPart(id: string): string {
    if id == [] then [] else if id[0] == '?' then id[1..] else QueryPart(id[1..])
  }

  lemma {:induction false} PartsOfAppend(name: string, q: string)
    requires '?' !in name
    ensures LoaderPart(name + q) == name + LoaderPart(q)
    ensures QueryPart(name + q) == QueryPart(q)
  {
    if name != [] {
      assert (name + q)[1..] == name[1..] + q;
      PartsOfAppend(name[1..], q);
      assert [name[0]] + name[1..] == name;
    } else {
      assert name + q == q;
    }
  }

  /** Reading an identifier back: a loader name without `?` is recovered, the query
      is the options string, `?ident` or the options JSON, and no options means no query. */
  lemma IdentRoundTrip(l: Loader)
    requires '?' !in l.loader
    requires LoaderToIdent(l).Ok?
    ensures LoaderPart(LoaderToIdent(l).value) == l.loader
    ensures QueryPart(LoaderToIdent(l).value) == (if HasOptions(l.options) then QueryOf(l) else "")
  {
    var id := LoaderToIdent(l).value;
    if !HasOptions(l.options) {
      PartsOfAppend(l.loader, "");
      assert l.loader + "" == l.loader;
    } else {
      var rest := match l.options
        case StringOptions(text) => text
        case ObjectOptions(json) => if l.ident != "" then "?" + l.ident else json
        case _ => "";
      assert id == l.loader + ("?" + rest);
      PartsOfAppend(l.loader, "?" + rest);
      assert ("?" + rest)[1..] == rest;
    }
  }

  /** The identifiers of `loaders` in order, or the error of the first one that throws. */
  function Idents(loaders: seq<Loader>): (r: Result<seq<string>>)
    ensures r.Ok? ==> |r.value| == |loaders|
  {
    if loaders == [] then Ok([])
    else match Idents(loaders[..|loaders| - 1])
      case Err(e) => Err(e)
      case Ok(ids) =>
        match LoaderToIdent(loaders[|loaders| - 1])
        case Err(e) => Err(e)
        case Ok(id) => Ok(ids + [id])
  }

  /** Each identifier followed by `!`. */
  function Bangs(ids: seq<string>): string {
    if ids == [] then "" else Bangs(ids[..|ids| - 1]) + ids[|ids| - 1] + "!"
  }

  /** The request `stringifyLoadersAndResource` produces, or its error. */
  function Stringified(loaders: seq<Loader>, resource: string): Result<string> {
    match Idents(loaders)
    case Err(e) => Err(e)
    case Ok(ids) => Ok(Bangs(ids) + resource)
  }

  /** `stringifyLoadersAndResource`: accumulates the identifiers left to right. */
  method StringifyLoadersAndResource(loaders: seq<Loader>, resource: string) returns (r: Result<string>)
    ensures r == Stringified(loaders, resource)
  {
    var str := "";
    var i := 0;
    while i < |loaders|
      invariant 0 <= i <= |loaders|
      invariant Idents(loaders[..i]).Ok?
      invariant str == Bangs(Idents(loaders[..i]).value)
    {
      assert loaders[..i + 1][..i] == loaders[..i];
      var id := LoaderToIdent(loaders[i]);
      if id.Err? {
        IdentsErrorPersists(loaders, i + 1);
        return Err(id.error);
      }
      str := str + id.value + "!";
      i := i + 1;
    }
    assert loaders[..i] == loaders;
    return Ok(str + resource);
  }

  /** Once a prefix of the loaders fails, the whole list fails with the same error. */
  lemma {:induction false} IdentsErrorPersists(loaders: seq<Loader>, n: nat)
    requires n <= |loaders|
    requires Idents(loaders[..n]).Err?
    ensures Idents(loaders) == Idents(loaders[..n])
    decreases |loaders| - n
  {
    if n < |loaders| {
      assert loaders[..n + 1][..n] == loaders[..n];
      IdentsErrorPersists(loaders, n + 1);
    } else {
      assert loaders[..n] == loaders;
    }
  }

  /** The request fails exactly when some loader has options that are neither a
      string nor an object; that loader's error is the one reported. */
  lemma {:induction false} StringifiedFails(loaders: seq<Loader>, resource: string)
    ensures Stringified(loaders, resource).Err? <==> exists i :: 0 <= i < |loaders| && loaders[i].options.OtherOptions?
    ensures Stringified(loaders, resource).Err? ==> Stringified(loaders, resource).error == OptionsTypeError
  {
    if loaders != [] {
      var init := loaders[..|loaders| - 1];
      StringifiedFails(init, resource);
      assert forall i :: 0 <= i < |init| ==> init[i] == loaders[i];
    }
  }

  lemma {:induction false} BangsJoin(ids: seq<string>, resource: string)
    ensures Bangs(ids) + resource == Join(ids + [resource], "!")
  {
    if ids != [] {
      var init := ids[..|ids| - 1];
      var last := ids[|ids| - 1];
      BangsJoin(init, last + "!" + resource);
      JoinSnoc(init, last, resource);
      assert Bangs(ids) + resource == Bangs(init) + (last + "!" + resource);
      assert init + [last, resource] == ids + [resource];
    } else {
      assert ids + [resource] == [resource];
    }
  }

  lemma {:induction false} JoinSnoc(init: seq<string>, last: string, resource: string)
    ensures Join(init + [last + "!" + resource], "!") == Join(init + [last, resource], "!")
  {
    if init == [] {
      assert init + [last + "!" + resource] == [last + "!" + resource];
      assert init + [last, resource] == [last, resource];
    } else {
      JoinSnoc(init[1..], last, resource);
      assert (init + [last + "!" + resource])[1..] == init[1..] + [last + "!" + resource];
      assert (init + [last, resource])[1..] == init[1..] + [last, resource];
    }
  }

  /** With no loaders the request is the resource itself. */
  lemma NoLoaders(resource: string)
    ensures Stringified([], resource) == Ok(resource)
  {
    assert "" + resource == resource;
  }

  lemma {:induction false} BangsSplit(ids: seq<string>, resource: string)
    requires forall i :: 0 <= i < |ids| ==> '!' !in ids[i]
    requires '!' !in resource
    ensures Split(Bangs(ids) + resource, '!') == ids + [resource]
  {
    BangsJoin(ids, resource);
    var parts := ids + [resource];
    forall i | 0 <= i < |parts| ensures '!' !in parts[i] {
      if i < |ids| { assert parts[i] == ids[i]; }
    }
    SplitJoin(parts, '!');
  }

  /** Splitting a request at `!` gives back the identifiers and the resource,
      provided none of them contains `!`. */
  lemma StringifiedSplits(loaders: seq<Loader>, resource: string)
    requires Idents(loaders).Ok?
    requires forall i :: 0 <= i < |loaders| ==> '!' !in Idents(loaders).value[i]
    requires '!' !in resource
    ensures Stringified(loaders, resource).Ok?
    ensures Split(Stringified(loaders, resource).value, '!') == Idents(loaders).value + [resource]
  {
    var ids := Idents(loaders).value;
    BangsSplit(ids, resource);
  }
}
