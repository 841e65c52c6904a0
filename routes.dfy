/** The application's route table: the path patterns of
    `make_addrservice_app`, matched against the whole request path and
    tried in the order they are listed, and the canonical entry URI. */
module Routes {
  import opened FirstMatch
  import opened Python

  /** A character of the class `[a-zA-Z0-9-]`. */
  predicate IsIdChar(c: char)
  {
    ('a' <= c <= 'z') || ('A' <= c <= 'Z') || ('0' <= c <= '9') || c == '-'
  }

  /** A string matching `[a-zA-Z0-9-]+`: an entry identifier. */
  predicate IsId(s: string)
  {
    |s| > 0 && forall i :: 0 <= i < |s| ==> IsIdChar(s[i])
  }

  /** The two shapes of pattern the application uses. */
  datatype Pattern =
    | OptionalSlash(stem: string)  // `<stem>/?`
    | IdSegment(stem: string)      // `<stem>(?P<id>[a-zA-Z0-9-]+)/?`

  /** The named groups a successful match captures. */
  datatype Captures = NoGroups | IdGroup(id: string)

  /** Whole-path match of `p` against `path`. For `IdSegment` the greedy
      identifier run cannot swallow a `/`, so a trailing `/` is the
      optional one and the rest is the identifier. */
  function Match(p: Pattern, path: string): (m: Option<Captures>)
  {
    match p
    case OptionalSlash(stem) =>
      if path == stem || path == stem + "/" then Some(NoGroups) else None
    case IdSegment(stem) =>
      if |path| > |stem| && path[..|stem|] == stem then
        var rest := path[|stem|..];
        var id := if rest[|rest| - 1] == '/' then rest[..|rest| - 1] else rest;
        if IsId(id) then Some(IdGroup(id)) else None
      else None
  }

  /** The request handler classes a rule can name. */
  datatype Handler =
    | LivenessHandler
    | ReadinessHandler
    | AddressBookHandler
    | AddressBookEntryHandler

  datatype Rule = Rule(pattern: Pattern, handler: Handler)

  /** `ADDRESSBOOK_REGEX`, `r'/addressbook/?'`. */
  const AddressBookRegex := OptionalSlash("/addressbook")
  /** `ADDRESSBOOK_ENTRY_REGEX`, `r'/addressbook/(?P<id>[a-zA-Z0-9-]+)/?'`. */
  const AddressBookEntryRegex := IdSegment("/addressbook/")

  /** The rule list of `make_addrservice_app`, in its order. */
  const AppRules := [
    Rule(OptionalSlash("/healthz"), LivenessHandler),
    Rule(OptionalSlash("/readiness"), ReadinessHandler),
    Rule(AddressBookRegex, AddressBookHandler),
    Rule(AddressBookEntryRegex, AddressBookEntryHandler)
  ]

  /** Where a path is dispatched: the handler of the first matching rule,
      with its captures, or the default handler. */
  datatype Target = Matched(handler: Handler, captures: Captures) | Unmatched

  function Route(rules: seq<Rule>, path: string): (t: Target)
    ensures t.Unmatched? <==> forall j :: 0 <= j < |rules| ==> Match(rules[j].pattern, path).None?
    ensures t.Matched? ==> exists k {:trigger rules[k]} ::
      && 0 <= k < |rules|
      && rules[k].handler == t.handler && Match(rules[k].pattern, path) == Some(t.captures)
      && forall j :: 0 <= j < k ==> Match(rules[j].pattern, path).None?
  {
    var k := FirstIndex(rules, (r: Rule) => Match(r.pattern, path).Some?);
    if k < |rules| then Matched(rules[k].handler, Match(rules[k].pattern, path).value) else Unmatched
  }

  /** `ADDRESSBOOK_ENTRY_URI_FORMAT_STR.format(id=id)`. */
  function EntryUri(id: string): (uri: string)
  {
    "/addressbook/" + id
  }

  /** The entry pattern accepts exactly `/addressbook/` followed by an
      identifier and an optional `/`, and captures that identifier. */
  lemma EntryMatchExact(path: string, id: string)
    ensures Match(AddressBookEntryRegex, path) == Some(IdGroup(id))
        <==> IsId(id) && (path == EntryUri(id) || path == EntryUri(id) + "/")
  {
    var stem := "/addressbook/";
    if IsId(id) && path == stem + id {
      assert path[..|stem|] == stem;
      assert path[|stem|..] == id;
      assert IsIdChar(id[|id| - 1]);
    } else if IsId(id) && path == stem + id + "/" {
      assert path[..|stem|] == stem;
      assert path[|stem|..] == id + "/";
      assert (id + "/")[..|id|] == id;
    }
    if Match(AddressBookEntryRegex, path) == Some(IdGroup(id)) {
      var rest := path[|stem|..];
      assert path == stem + rest;
      if rest[|rest| - 1] == '/' {
        assert rest == rest[..|rest| - 1] + "/";
      }
    }
  }

  /** No path matches two of the application's patterns, so the order in
      which the rules are tried never changes where a path goes. */
  lemma AppRulesDisjoint(path: string, i: nat, j: nat)
    requires i < j < |AppRules|
    ensures Match(AppRules[i].pattern, path).None? || Match(AppRules[j].pattern, path).None?
  {
  }

  /** Where each path goes, pattern by pattern. */
  lemma RouteCases(path: string)
    ensures Route(AppRules, path) ==
      if path == "/healthz" || path == "/healthz/" then Matched(LivenessHandler, NoGroups)
      else if path == "/readiness" || path == "/readiness/" then Matched(ReadinessHandler, NoGroups)
      else if path == "/addressbook" || path == "/addressbook/" then Matched(AddressBookHandler, NoGroups)
      else if Match(AddressBookEntryRegex, path).Some? then Matched(AddressBookEntryHandler, Match(AddressBookEntryRegex, path).value)
      else Unmatched
  {
    var t := Route(AppRules, path);
    var healthz, readiness, book, entry :=
      Match(AppRules[0].pattern, path), Match(AppRules[1].pattern, path),
      Match(AppRules[2].pattern, path), Match(AppRules[3].pattern, path);
    assert healthz == if path == "/healthz" || path == "/healthz/" then Some(NoGroups) else None;
    assert readiness == if path == "/readiness" || path == "/readiness/" then Some(NoGroups) else None;
    assert book == if path == "/addressbook" || path == "/addressbook/" then Some(NoGroups) else None;
    assert entry == Match(AddressBookEntryRegex, path);
    if t.Matched? {
      var k :| 0 <= k < |AppRules| && AppRules[k].handler == t.handler && Match(AppRules[k].pattern, path) == Some(t.captures);
      forall j | 0 <= j < |AppRules| && j != k
        ensures Match(AppRules[j].pattern, path).None?
      {
        if j < k { AppRulesDisjoint(path, j, k); } else { AppRulesDisjoint(path, k, j); }
      }
      if k == 0 {
        assert t == Matched(LivenessHandler, NoGroups);
      } else if k == 1 {
        assert healthz.None?;
        assert t == Matched(ReadinessHandler, NoGroups);
      } else if k == 2 {
        assert healthz.None? && readiness.None?;
        assert t == Matched(AddressBookHandler, NoGroups);
      } else {
        assert healthz.None? && readiness.None? && book.None?;
        assert t == Matched(AddressBookEntryHandler, entry.value);
      }
    } else {
      assert healthz.None? && readiness.None? && book.None? && entry.None?;
    }
  }

  /** The `Location` of a created entry routes back to the entry handler
      with the same identifier, with or without a trailing `/`, exactly
      when the identifier is of the form `[a-zA-Z0-9-]+`. */
  lemma LocationRoundTrip(id: string)
    ensures Route(AppRules, EntryUri(id)) == Matched(AddressBookEntryHandler, IdGroup(id)) <==> IsId(id)
    ensures IsId(id) ==> Route(AppRules, EntryUri(id) + "/") == Matched(AddressBookEntryHandler, IdGroup(id))
  {
    RouteCases(EntryUri(id));
    RouteCases(EntryUri(id) + "/");
    EntryMatchExact(EntryUri(id), id);
    EntryMatchExact(EntryUri(id) + "/", id);
    if IsId(id) {
      assert EntryUri(id)[..9] == "/addressb";
      assert |EntryUri(id)| > 13;
    }
  }
}
