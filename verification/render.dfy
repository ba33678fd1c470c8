/**
 * `router.render`: the response is either the attached result as JSON(P), or,
 * in hypermedia mode, a view whose template is chosen by the first path
 * segment and by a method key derived from the HTTP verb and the number of
 * path components.
 */
module Renderer {
  import opened Wrappers
  import opened JsValues
  import opened Paths

  /** What the renderer reads of a request: `req.path` and `req.method`. */
  datatype Request = Request(path: string, verb: string)

  /** What is sent back: `res.jsonp(data)`, `res.render(template, { top: data })`, or an error trace. */
  datatype Reply =
    | Jsonp(body: JsValue)
    | View(template: string, top: JsValue)
    | Trace(stack: string)

  /** `opts.templates[name][templateMethod]` was not a template path (a `TypeError` in the source). */
  datatype RenderError = TemplateNotFound(name: string, templateMethod: string)

  const HypermediaKey: string := "hypermedia"
  const TemplatesKey: string := "templates"

  /** `trimmedPath.split('/')`: the leading empty component counts. */
  function Components(path: string): (c: seq<string>)
    ensures |c| == Occurrences(TrimTrailingSlash(path), Slash) + 1
  {
    var trimmed := TrimTrailingSlash(path);
    SplitLength(trimmed, Slash);
    Split(trimmed, Slash)
  }

  /**
   * `components[1]`: defined exactly when there are at least two components,
   * and then a single slash-free segment; `undefined` (None) otherwise.
   */
  function TemplateName(path: string): (name: Option<string>)
    ensures name.Some? <==> |Components(path)| >= 2
    ensures name.Some? ==> name.value == Components(path)[1] && Slash !in name.value
  {
    var c := Components(path);
    SplitPiecesFree(TrimTrailingSlash(path), Slash);
    if |c| >= 2 then Some(c[1]) else None
  }

  /** The property key a template name is looked up under: `undefined` becomes "undefined". */
  function PropertyKey(name: Option<string>): string {
    match name
    case Some(s) => s
    case None => "undefined"
  }

  /**
   * The template method table, one row per verb and component count; every
   * other pair gets the empty key.
   */
  function TemplateKey(verb: string, n: nat): (m: string)
    ensures m in {"", "POST", "GET-ALL", "GET", "PUT", "DELETE"}
    ensures m == "POST" <==> verb == "POST" && n >= 2
    ensures m == "GET-ALL" <==> verb == "GET" && n == 2
    ensures m == "GET" <==> verb == "GET" && n >= 3
    ensures m == "PUT" <==> verb == "PUT" && n >= 3
    ensures m == "DELETE" <==> verb == "DELETE" && n >= 3
    ensures m == "" <==> !(verb == "POST" && n >= 2) && !(verb == "GET" && n >= 2)
                         && !(verb in {"PUT", "DELETE"} && n >= 3)
  {
    if verb == "POST" && n >= 2 then "POST"
    else if verb == "GET" && n == 2 then "GET-ALL"
    else if verb == "GET" && n >= 3 then "GET"
    else if verb == "PUT" && n >= 3 then "PUT"
    else if verb == "DELETE" && n >= 3 then "DELETE"
    else ""
  }

  /**
   * The template derivation as the source performs it: trim, split, take
   * component 1, then five guarded reassignments of `templateMethod` in turn.
   */
  method DeriveTemplate(req: Request) returns (templateName: Option<string>, templateMethod: string)
    ensures templateName == TemplateName(req.path)
    ensures templateMethod == TemplateKey(req.verb, |Components(req.path)|)
  {
    var trimmedPath := TrimTrailingSlash(req.path);
    var components := Split(trimmedPath, Slash);
    templateName := if |components| >= 2 then Some(components[1]) else None;
    templateMethod := "";
    if |components| >= 2 && req.verb == "POST" {
      templateMethod := "POST";
    }
    if |components| == 2 && req.verb == "GET" {
      templateMethod := "GET-ALL";
    }
    if |components| >= 3 && req.verb == "GET" {
      templateMethod := "GET";
    }
    if |components| >= 3 && req.verb == "PUT" {
      templateMethod := "PUT";
    }
    if |components| >= 3 && req.verb == "DELETE" {
      templateMethod := "DELETE";
    }
  }

  // ---------------------------------------------------------------------------
  // The five guarded assignments as data, to show that their order is irrelevant.

  /** `if (components.length <op> count && req.method === verb) templateMethod = key`. */
  datatype Rule = Rule(verb: string, count: nat, exact: bool, key: string)

  predicate Matches(r: Rule, verb: string, n: nat) {
    verb == r.verb && (if r.exact then n == r.count else n >= r.count)
  }

  /** The assignments in the order the source writes them. */
  const Rules: seq<Rule> := [
    Rule("POST", 2, false, "POST"),
    Rule("GET", 2, true, "GET-ALL"),
    Rule("GET", 3, false, "GET"),
    Rule("PUT", 3, false, "PUT"),
    Rule("DELETE", 3, false, "DELETE")
  ]

  /** Runs guarded assignments in sequence, starting from `current`: the last one that fires wins. */
  function Reassign(rules: seq<Rule>, verb: string, n: nat, current: string): string
    decreases |rules|
  {
    if rules == [] then current
    else Reassign(rules[1..], verb, n, if Matches(rules[0], verb, n) then rules[0].key else current)
  }

  /** When at most one assignment fires, the sequence yields that one's key, or leaves the start value. */
  lemma {:induction false} ReassignSingleMatch(rules: seq<Rule>, verb: string, n: nat, current: string)
    requires forall i, j :: 0 <= i < j < |rules| ==> !(Matches(rules[i], verb, n) && Matches(rules[j], verb, n))
    ensures (forall i :: 0 <= i < |rules| ==> !Matches(rules[i], verb, n)) ==> Reassign(rules, verb, n, current) == current
    ensures forall i :: 0 <= i < |rules| && Matches(rules[i], verb, n) ==> Reassign(rules, verb, n, current) == rules[i].key
    decreases |rules|
  {
    if rules != [] {
      var next := if Matches(rules[0], verb, n) then rules[0].key else current;
      ReassignSingleMatch(rules[1..], verb, n, next);
      forall i | 0 <= i < |rules| && Matches(rules[i], verb, n)
        ensures Reassign(rules, verb, n, current) == rules[i].key
      {
        if i > 0 {
          assert rules[1..][i - 1] == rules[i];
        } else {
          assert forall k :: 0 <= k < |rules[1..]| ==> rules[1..][k] == rules[k + 1];
        }
      }
    }
  }

  /** Two different assignments of the source never both fire. */
  lemma RulesExclusive(a: Rule, b: Rule, verb: string, n: nat)
    requires a in Rules && b in Rules && a != b
    ensures !(Matches(a, verb, n) && Matches(b, verb, n))
  {
  }

  /** Whenever an assignment fires, its key is the table's entry. */
  lemma RuleAgreesWithTable(r: Rule, verb: string, n: nat)
    requires r in Rules && Matches(r, verb, n)
    ensures TemplateKey(verb, n) == r.key
  {
  }

  /** Every non-empty table entry comes from an assignment that fires. */
  lemma TableEntryHasRule(verb: string, n: nat) returns (r: Rule)
    requires TemplateKey(verb, n) != ""
    ensures r in Rules && Matches(r, verb, n) && r.key == TemplateKey(verb, n)
  {
    if verb == "POST" { r := Rules[0]; }
    else if verb == "GET" && n == 2 { r := Rules[1]; }
    else if verb == "GET" { r := Rules[2]; }
    else if verb == "PUT" { r := Rules[3]; }
    else { r := Rules[4]; }
  }

  /**
   * The guarded assignments are mutually exclusive, so running them in ANY
   * order (each exactly once) gives the table's entry.
   */
  lemma {:induction false} AssignmentOrderIrrelevant(order: seq<Rule>, verb: string, n: nat)
    requires forall r :: r in order <==> r in Rules
    requires forall i, j :: 0 <= i < j < |order| ==> order[i] != order[j]
    ensures Reassign(order, verb, n, "") == TemplateKey(verb, n)
  {
    forall i, j | 0 <= i < j < |order|
      ensures !(Matches(order[i], verb, n) && Matches(order[j], verb, n))
    {
      RulesExclusive(order[i], order[j], verb, n);
    }
    ReassignSingleMatch(order, verb, n, "");
    if TemplateKey(verb, n) != "" {
      var r := TableEntryHasRule(verb, n);
      var i :| 0 <= i < |order| && order[i] == r;
    } else {
      forall i | 0 <= i < |order| ensures !Matches(order[i], verb, n) {
        if Matches(order[i], verb, n) {
          RuleAgreesWithTable(order[i], verb, n);
        }
      }
    }
  }

  /** The source's own order is one such order. */
  lemma SourceOrderIsTable(verb: string, n: nat)
    ensures Reassign(Rules, verb, n, "") == TemplateKey(verb, n)
  {
  }

  // ---------------------------------------------------------------------------
  // Template name and component count for the usual path shapes.

  /**
   * The template name is the first segment after the leading slash, whatever
   * follows it (nothing, or further segments, with or without a trailing slash).
   */
  lemma TemplateNameIsFirstSegment(name: string, rest: string)
    requires Slash !in name
    requires (rest == [] && name != []) || (rest != [] && rest[0] == Slash)
    ensures TemplateName([Slash] + name + rest) == Some(name)
  {
    var path := [Slash] + name + rest;
    SplitWithoutSeparator(name, Slash);
    if rest == [] {
      assert !EndsWithSlash(path) by { assert path[|path| - 1] == name[|name| - 1]; }
      assert TrimTrailingSlash(path) == [] + [Slash] + name;
      SplitAround([], name, Slash);
    } else {
      var t := TrimTrailingSlash(rest);
      assert TrimTrailingSlash(path) == [Slash] + name + t by {
        if EndsWithSlash(rest) {
          assert path[..|path| - 1] == [Slash] + name + rest[..|rest| - 1];
        }
      }
      assert [Slash] + name + t == [] + [Slash] + (name + t);
      SplitAround([], name + t, Slash);
      if t == [] {
        assert name + t == name;
      } else {
        assert t == [Slash] + t[1..];
        assert name + t == name + [Slash] + t[1..];
        SplitAround(name, t[1..], Slash);
      }
    }
  }

  /** There is a template name exactly when the trimmed path holds a slash. */
  lemma {:induction false} TemplateNameDefined(path: string)
    ensures TemplateName(path).Some? <==> Slash in TrimTrailingSlash(path)
  {
    OccurrencesCounts(TrimTrailingSlash(path), Slash);
  }

  lemma {:induction false} OccurrencesCounts(s: string, c: char)
    ensures Occurrences(s, c) > 0 <==> c in s
    decreases |s|
  {
    if s != [] {
      OccurrencesCounts(s[1..], c);
      assert s == [s[0]] + s[1..];
    }
  }

  /** `/name` and `/name/` have two components: the empty one and the name. */
  lemma CollectionPathComponents(name: string)
    requires name != [] && Slash !in name
    ensures Components([Slash] + name) == ["", name]
    ensures Components([Slash] + name + [Slash]) == ["", name]
  {
    SplitWithoutSeparator(name, Slash);
    SplitAround([], name, Slash);
    assert [] + [Slash] + name == [Slash] + name;
    var p := [Slash] + name;
    assert p[|p| - 1] == name[|name| - 1];
    var q := [Slash] + name + [Slash];
    assert q[..|q| - 1] == p;
  }

  /** `/name/id` has three components. */
  lemma ItemPathComponents(name: string, id: string)
    requires Slash !in name && Slash !in id && id != []
    ensures Components([Slash] + name + [Slash] + id) == ["", name, id]
  {
    var p := [Slash] + name + [Slash] + id;
    assert p[|p| - 1] == id[|id| - 1];
    SplitWithoutSeparator(name, Slash);
    SplitWithoutSeparator(id, Slash);
    SplitAround(name, id, Slash);
    SplitAround([], name + [Slash] + id, Slash);
    assert p == [] + [Slash] + (name + [Slash] + id);
  }

  // ---------------------------------------------------------------------------
  // Rendering.

  /**
   * `opts.templates[name][templateMethod]`, read one property at a time: a
   * template path exactly when both reads go through plain objects and the
   * second yields a string, and then that string.
   */
  function TemplatePath(templates: JsValue, name: string, templateMethod: string): (p: Option<string>)
    ensures p.Some? <==>
      templates.PlainObject? && Property(templates.fields, name).PlainObject? &&
      Property(Property(templates.fields, name).fields, templateMethod).Str?
    ensures p.Some? ==> Property(Property(templates.fields, name).fields, templateMethod) == Str(p.value)
  {
    if templates.PlainObject? && name in templates.fields then
      var byMethod := templates.fields[name];
      if byMethod.PlainObject? && templateMethod in byMethod.fields && byMethod.fields[templateMethod].Str?
      then Some(byMethod.fields[templateMethod].s)
      else None
    else None
  }

  /**
   * What `router.render` sends for a request whose result is `data`, under the
   * (defaulted) options `opts`. Without hypermedia the result goes out as
   * JSON(P) untouched; with it, the result is bound to `top` of the looked-up
   * template, and a failed lookup is an error rather than a reply.
   */
  function Rendering(opts: map<string, JsValue>, req: Request, data: JsValue): (r: Result<Reply, RenderError>)
    ensures !Truthy(Property(opts, HypermediaKey)) ==> r == Success(Jsonp(data))
    ensures r.Success? ==> r.value == Jsonp(data) || (r.value.View? && r.value.top == data)
    ensures r.Failure? <==> (Truthy(Property(opts, HypermediaKey)) &&
      TemplatePath(Property(opts, TemplatesKey), PropertyKey(TemplateName(req.path)),
                   TemplateKey(req.verb, |Components(req.path)|)).None?)
  {
    if Truthy(Property(opts, HypermediaKey)) then
      var name := PropertyKey(TemplateName(req.path));
      var key := TemplateKey(req.verb, |Components(req.path)|);
      match TemplatePath(Property(opts, TemplatesKey), name, key)
      case Some(p) => Success(View(p, data))
      case None => Failure(TemplateNotFound(name, key))
    else
      Success(Jsonp(data))
  }

  /**
   * In hypermedia mode, `GET /name` renders `templates[name]["GET-ALL"]` and
   * `POST /name` renders `templates[name]["POST"]`, with or without a trailing slash.
   */
  lemma CollectionRequestRendersTemplate(opts: map<string, JsValue>, name: string, verb: string, trailing: bool, data: JsValue)
    requires Truthy(Property(opts, HypermediaKey))
    requires name != [] && Slash !in name
    requires verb in {"GET", "POST"}
    ensures var req := Request([Slash] + name + (if trailing then [Slash] else []), verb);
      var key := if verb == "GET" then "GET-ALL" else "POST";
      Rendering(opts, req, data) ==
        match TemplatePath(Property(opts, TemplatesKey), name, key)
        case Some(p) => Success(View(p, data))
        case None => Failure(TemplateNotFound(name, key))
  {
    CollectionPathComponents(name);
    TemplateNameIsFirstSegment(name, if trailing then [Slash] else []);
    assert [Slash] + name + [] == [Slash] + name;
  }

  /** In hypermedia mode, `GET`, `PUT`, `DELETE` or `POST /name/id` renders `templates[name][verb]`. */
  lemma ItemRequestRendersVerb(opts: map<string, JsValue>, name: string, id: string, verb: string, data: JsValue)
    requires Truthy(Property(opts, HypermediaKey))
    requires Slash !in name && Slash !in id && id != []
    requires verb in {"GET", "PUT", "DELETE", "POST"}
    ensures Rendering(opts, Request([Slash] + name + [Slash] + id, verb), data) ==
      match TemplatePath(Property(opts, TemplatesKey), name, verb)
      case Some(p) => Success(View(p, data))
      case None => Failure(TemplateNotFound(name, verb))
  {
    ItemPathComponents(name, id);
    assert [Slash] + name + [Slash] + id == [Slash] + name + ([Slash] + id);
    TemplateNameIsFirstSegment(name, [Slash] + id);
  }

  /**
   * In hypermedia mode a verb/depth pair outside the table (`PUT /name`,
   * `PATCH /name/id`, `DELETE /name`) looks up the empty key `""`.
   */
  lemma UnlistedRequestLooksUpEmptyKey(opts: map<string, JsValue>, name: string, id: string, verb: string, data: JsValue)
    requires Truthy(Property(opts, HypermediaKey))
    requires name != [] && Slash !in name && Slash !in id
    requires (id == [] && verb != "GET" && verb != "POST") || (id != [] && verb !in {"GET", "PUT", "DELETE", "POST"})
    ensures var req := Request([Slash] + name + (if id == [] then [] else [Slash] + id), verb);
      Rendering(opts, req, data) ==
        match TemplatePath(Property(opts, TemplatesKey), name, "")
        case Some(p) => Success(View(p, data))
        case None => Failure(TemplateNotFound(name, ""))
  {
    if id == [] {
      CollectionPathComponents(name);
      TemplateNameIsFirstSegment(name, []);
      assert [Slash] + name + [] == [Slash] + name;
    } else {
      ItemPathComponents(name, id);
      assert [Slash] + name + [Slash] + id == [Slash] + name + ([Slash] + id);
      TemplateNameIsFirstSegment(name, [Slash] + id);
    }
  }
}
