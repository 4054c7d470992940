/**
 The transport grant carried in a query string: how it is found, and how it is taken out before any
 feature decoder sees the query. Decoding one `name=value` part is a parameter.
 */
module TicketQuery {
  import opened Basics

  const TICKET_QUERY: string := "axial_ticket"

  datatype Uri = Uri(path: string, query: Option<string>)

  datatype Pair = Pair(name: string, value: string)

  // A parsed URI keeps no question mark in its path.
  predicate WellFormed(uri: Uri) {
    '?' !in uri.path
  }

  // ---------------------------------------------------------------- splitting and joining

  function Split(s: string): (parts: seq<string>)
    ensures |parts| > 0
    ensures forall i :: 0 <= i < |parts| ==> '&' !in parts[i]
  {
    if s == "" then [""]
    else
      var rest := Split(s[1..]);
      if s[0] == '&' then [""] + rest else [[s[0]] + rest[0]] + rest[1..]
  }

  function Join(parts: seq<string>): string
    requires |parts| > 0
  {
    if |parts| == 1 then parts[0] else parts[0] + "&" + Join(parts[1..])
  }

  function Filter<T(!new)>(items: seq<T>, keep: T -> bool): (kept: seq<T>)
    ensures forall x :: x in kept <==> x in items && keep(x)
    ensures |kept| <= |items|
  {
    if items == [] then []
    else if keep(items[0]) then [items[0]] + Filter(items[1..], keep)
    else Filter(items[1..], keep)
  }

  lemma {:induction false} SplitFirst(part: string, rest: string)
    requires '&' !in part
    ensures Split(part + "&" + rest) == [part] + Split(rest)
  {
    var s := part + "&" + rest;
    if part == "" {
      assert s[1..] == rest;
    } else {
      assert s[1..] == part[1..] + "&" + rest;
      SplitFirst(part[1..], rest);
      assert s[0] == part[0] && part[0] in part;
      assert [part[0]] + part[1..] == part;
    }
  }

  lemma {:induction false} SplitWhole(part: string)
    requires '&' !in part
    ensures Split(part) == [part]
  {
    if part != "" {
      SplitWhole(part[1..]);
      assert part[0] in part;
      assert [part[0]] + part[1..] == part;
    }
  }

  lemma {:induction false} SplitJoin(parts: seq<string>)
    requires |parts| > 0 && forall i :: 0 <= i < |parts| ==> '&' !in parts[i]
    ensures Split(Join(parts)) == parts
  {
    if |parts| == 1 {
      SplitWhole(parts[0]);
    } else {
      SplitJoin(parts[1..]);
      SplitFirst(parts[0], Join(parts[1..]));
    }
  }

  lemma {:induction false} JoinSplit(s: string)
    ensures Join(Split(s)) == s
  {
    if s != "" {
      JoinSplit(s[1..]);
      var rest := Split(s[1..]);
      if s[0] == '&' {
        assert ([""] + rest)[1..] == rest;
      } else {
        assert ([[s[0]] + rest[0]] + rest[1..])[1..] == rest[1..];
      }
    }
  }

  // ---------------------------------------------------------------- the form decoder

  function PairsOf(decode: string -> Pair, parts: seq<string>): (pairs: seq<Pair>)
    ensures |pairs| <= |parts|
  {
    if parts == [] then []
    else if parts[0] == "" then PairsOf(decode, parts[1..])
    else [decode(parts[0])] + PairsOf(decode, parts[1..])
  }

  // The decoder skips empty parts and decodes the others in order.
  function Parse(decode: string -> Pair, query: string): seq<Pair> {
    PairsOf(decode, Split(query))
  }

  function Pairs(decode: string -> Pair, uri: Uri): seq<Pair> {
    if uri.query.None? then [] else Parse(decode, uri.query.value)
  }

  function Parts(uri: Uri): seq<string> {
    if uri.query.None? then [] else Split(uri.query.value)
  }

  // ---------------------------------------------------------------- finding the grant

  function Values(pairs: seq<Pair>): (values: seq<string>)
    ensures |values| <= |pairs|
  {
    if pairs == [] then []
    else if pairs[0].name == TICKET_QUERY then [pairs[0].value] + Values(pairs[1..])
    else Values(pairs[1..])
  }

  // A grant counts only when it is given once and is not empty.
  function Only(values: seq<string>): Option<string> {
    if |values| == 1 && values[0] != "" then Some(values[0]) else None
  }

  function QueryTicket(decode: string -> Pair, uri: Uri): Option<string> {
    Only(Values(Pairs(decode, uri)))
  }

  lemma {:induction false} ValuesAppend(a: seq<Pair>, b: seq<Pair>)
    ensures Values(a + b) == Values(a) + Values(b)
  {
    if a == [] {
      assert a + b == b;
    } else {
      assert (a + b)[1..] == a[1..] + b;
      ValuesAppend(a[1..], b);
    }
  }

  // Exactly one pair, at `i`, names the grant.
  ghost predicate NamedOnceAt(pairs: seq<Pair>, i: nat) {
    && i < |pairs| && pairs[i].name == TICKET_QUERY
    && forall j :: 0 <= j < |pairs| && j != i ==> pairs[j].name != TICKET_QUERY
  }

  lemma {:induction false} NoValues(pairs: seq<Pair>)
    ensures Values(pairs) == [] <==> forall j :: 0 <= j < |pairs| ==> pairs[j].name != TICKET_QUERY
  {
    if pairs != [] {
      NoValues(pairs[1..]);
      assert forall j :: 0 < j < |pairs| ==> pairs[j] == pairs[1..][j - 1];
    }
  }

  lemma {:induction false} OneValue(pairs: seq<Pair>, value: string)
    ensures Values(pairs) == [value] <==> exists i: nat :: NamedOnceAt(pairs, i) && pairs[i].value == value
  {
    if pairs != [] {
      var rest := pairs[1..];
      NoValues(rest);
      OneValue(rest, value);
      assert forall j :: 0 < j < |pairs| ==> pairs[j] == rest[j - 1];
      if pairs[0].name == TICKET_QUERY {
        if Values(pairs) == [value] { assert NamedOnceAt(pairs, 0); }
        if i: nat :| NamedOnceAt(pairs, i) && pairs[i].value == value { assert i == 0; }
      } else {
        if i: nat :| NamedOnceAt(pairs, i) && pairs[i].value == value { assert NamedOnceAt(rest, i - 1); }
        if i: nat :| NamedOnceAt(rest, i) && rest[i].value == value { assert NamedOnceAt(pairs, i + 1); }
      }
    }
  }

  // A query carries a grant exactly when one of its pairs, and no other, names it with a value.
  lemma QueryTicketIsExact(decode: string -> Pair, uri: Uri, ticket: string)
    ensures QueryTicket(decode, uri) == Some(ticket) <==>
            && ticket != ""
            && exists i: nat :: NamedOnceAt(Pairs(decode, uri), i) && Pairs(decode, uri)[i].value == ticket
  {
    OneValue(Pairs(decode, uri), ticket);
  }

  method FindTicket(decode: string -> Pair, uri: Uri) returns (result: Option<string>)
    ensures result == QueryTicket(decode, uri)
  {
    result := None;
    if uri.query.None? {
      return;
    }
    var pairs := Parse(decode, uri.query.value);
    var i := 0;
    while i < |pairs|
      invariant 0 <= i <= |pairs|
      invariant Values(pairs[..i]) == if result.None? then [] else [result.value]
      invariant result.Some? ==> result.value != ""
    {
      assert pairs[..i + 1] == pairs[..i] + [pairs[i]];
      ValuesAppend(pairs[..i], [pairs[i]]);
      if pairs[i].name == TICKET_QUERY {
        if result.Some? || pairs[i].value == "" {
          assert pairs == pairs[..i + 1] + pairs[i + 1..];
          ValuesAppend(pairs[..i + 1], pairs[i + 1..]);
          return None;
        }
        result := Some(pairs[i].value);
      }
      i := i + 1;
    }
    assert pairs[..i] == pairs;
  }

  // ---------------------------------------------------------------- taking it out

  predicate Named(pair: Pair) {
    pair.name == TICKET_QUERY
  }

  predicate Grants(decode: string -> Pair, part: string) {
    exists pair :: pair in Parse(decode, part) && Named(pair)
  }

  function Retained(decode: string -> Pair, parts: seq<string>): (kept: seq<string>)
    ensures |kept| <= |parts|
    ensures forall part :: part in kept <==> part in parts && !Grants(decode, part)
  {
    Filter(parts, part => !Grants(decode, part))
  }

  // The first question mark separates the path from the query.
  function ParsePathAndQuery(s: string): Uri {
    if s == "" then Uri("", None)
    else if s[0] == '?' then Uri("", Some(s[1..]))
    else
      var rest := ParsePathAndQuery(s[1..]);
      rest.(path := [s[0]] + rest.path)
  }

  function WithoutTicket(decode: string -> Pair, uri: Uri): Option<Uri> {
    if uri.query.None? then None
    else
      var retained := Retained(decode, Split(uri.query.value));
      if |retained| == |Split(uri.query.value)| then None
      else Some(ParsePathAndQuery(if retained == [] then uri.path else uri.path + "?" + Join(retained)))
  }

  // What the handler behind the authentication layer is given.
  function Forwarded(decode: string -> Pair, uri: Uri): Uri {
    var rewritten := WithoutTicket(decode, uri);
    if rewritten.Some? then rewritten.value else uri
  }

  lemma {:induction false} ParsesBack(path: string, query: Option<string>)
    requires '?' !in path
    ensures ParsePathAndQuery(if query.None? then path else path + "?" + query.value) == Uri(path, query)
  {
    if path != "" {
      ParsesBack(path[1..], query);
      if query.Some? {
        assert (path + "?" + query.value)[1..] == path[1..] + "?" + query.value;
      }
    } else if query.Some? {
      assert (path + "?" + query.value)[1..] == query.value;
    }
  }

  lemma GrantsExactly(decode: string -> Pair, part: string)
    requires '&' !in part
    ensures Grants(decode, part) <==> part != "" && Named(decode(part))
  {
    SplitWhole(part);
    assert Parse(decode, part) == if part == "" then [] else [decode(part)];
    if part != "" && Named(decode(part)) {
      assert decode(part) in Parse(decode, part);
    }
  }

  lemma {:induction false} RetainedPairs(decode: string -> Pair, parts: seq<string>)
    requires forall i :: 0 <= i < |parts| ==> '&' !in parts[i]
    ensures PairsOf(decode, Retained(decode, parts)) == Filter(PairsOf(decode, parts), pair => !Named(pair))
  {
    if parts != [] {
      GrantsExactly(decode, parts[0]);
      RetainedPairs(decode, parts[1..]);
      if !Grants(decode, parts[0]) {
        assert Retained(decode, parts)[1..] == Retained(decode, parts[1..]);
        if parts[0] != "" {
          assert PairsOf(decode, parts)[1..] == PairsOf(decode, parts[1..]);
        }
      } else {
        assert PairsOf(decode, parts)[1..] == PairsOf(decode, parts[1..]);
      }
    }
  }

  lemma {:induction false} FullFilterIsAll<T(!new)>(items: seq<T>, keep: T -> bool)
    requires |Filter(items, keep)| == |items|
    ensures Filter(items, keep) == items
  {
    if items != [] {
      FullFilterIsAll(items[1..], keep);
    }
  }

  // Path and every other part survive with their text and order, and no granting part is left.
  lemma RewriteKeepsTheRest(decode: string -> Pair, uri: Uri)
    requires WellFormed(uri)
    ensures var u := Forwarded(decode, uri);
      && WellFormed(u) && u.path == uri.path
      && Parts(u) == Retained(decode, Parts(uri))
  {
    if uri.query.Some? {
      var parts := Split(uri.query.value);
      var retained := Retained(decode, parts);
      if |retained| == |parts| {
        FullFilterIsAll(parts, part => !Grants(decode, part));
      } else if retained == [] {
        ParsesBack(uri.path, None);
      } else {
        ParsesBack(uri.path, Some(Join(retained)));
        forall i | 0 <= i < |retained| ensures '&' !in retained[i] {
          assert retained[i] in parts;
        }
        SplitJoin(retained);
      }
    }
  }

  // The handler's decoder sees its own parameters and nothing else, whatever the query held.
  lemma HandlerSeesItsOwnParameters(decode: string -> Pair, uri: Uri)
    requires WellFormed(uri)
    ensures Pairs(decode, Forwarded(decode, uri)) == Filter(Pairs(decode, uri), pair => !Named(pair))
  {
    RewriteKeepsTheRest(decode, uri);
    RetainedPairs(decode, Parts(uri));
  }

  lemma {:induction false} ValuesNamed(pairs: seq<Pair>)
    ensures (exists pair :: pair in pairs && Named(pair)) <==> Values(pairs) != []
  {
    if pairs != [] {
      ValuesNamed(pairs[1..]);
      assert pairs == [pairs[0]] + pairs[1..];
      if Named(pairs[0]) {
        assert pairs[0] in pairs;
      }
    }
  }

  // Rewriting happens exactly when the query names the grant, once or often, empty or not; so an
  // authenticated ticket never reaches a handler.
  lemma RewrittenExactlyWhenNamed(decode: string -> Pair, uri: Uri)
    requires WellFormed(uri)
    ensures WithoutTicket(decode, uri).Some? <==> exists pair :: pair in Pairs(decode, uri) && Named(pair)
    ensures QueryTicket(decode, uri).Some? ==> WithoutTicket(decode, uri).Some?
    ensures QueryTicket(decode, Forwarded(decode, uri)) == None && WithoutTicket(decode, Forwarded(decode, uri)) == None
  {
    NamedExactly(decode, uri);
    ValuesNamed(Pairs(decode, uri));
    HandlerSeesItsOwnParameters(decode, uri);
    var u := Forwarded(decode, uri);
    RewriteKeepsTheRest(decode, uri);
    NamedExactly(decode, u);
    ValuesNamed(Pairs(decode, u));
  }

  lemma {:induction false} PairsOfMember(decode: string -> Pair, parts: seq<string>, pair: Pair)
    ensures pair in PairsOf(decode, parts) <==> exists part :: part in parts && part != "" && decode(part) == pair
  {
    if parts != [] {
      PairsOfMember(decode, parts[1..], pair);
      assert parts == [parts[0]] + parts[1..];
    }
  }

  lemma {:induction false} PartialFilterDrops<T(!new)>(items: seq<T>, keep: T -> bool)
    requires |Filter(items, keep)| != |items|
    ensures exists x :: x in items && !keep(x)
  {
    if keep(items[0]) {
      PartialFilterDrops(items[1..], keep);
      var x :| x in items[1..] && !keep(x);
      assert x in items;
    } else {
      assert items[0] in items;
    }
  }

  lemma NamedExactly(decode: string -> Pair, uri: Uri)
    ensures WithoutTicket(decode, uri).Some? <==> exists pair :: pair in Pairs(decode, uri) && Named(pair)
  {
    if uri.query.Some? {
      var parts := Split(uri.query.value);
      if WithoutTicket(decode, uri).Some? {
        PartialFilterDrops(parts, part => !Grants(decode, part));
        var part :| part in parts && Grants(decode, part);
        GrantsExactly(decode, part);
        PairsOfMember(decode, parts, decode(part));
      } else {
        FullFilterIsAll(parts, part => !Grants(decode, part));
        forall pair | pair in Pairs(decode, uri) ensures !Named(pair) {
          PairsOfMember(decode, parts, pair);
          var part :| part in parts && part != "" && decode(part) == pair;
          GrantsExactly(decode, part);
          assert part in Retained(decode, parts);
        }
      }
    }
  }
}
