/**
 * The path resolver of src/field_mappers/base.py (`get_value_at_json_path`): a path such as
 * `users[0].age` is cut into tokens at `.`, `[` and `]`, empty tokens are dropped, and the tokens
 * are followed one by one through dicts (by key) and lists (by integer index).
 * Being a function on values, the resolver cannot change the document it reads.
 */
module JsonPath {
  import opened Json
  import opened Text

  predicate IsSeparator(c: char)
  {
    c == '.' || c == '[' || c == ']'
  }

  /** A token as the resolver can produce one: non-empty and free of separators. */
  predicate IsWord(s: string)
  {
    s != [] && forall i :: 0 <= i < |s| ==> !IsSeparator(s[i])
  }

  /** The token being built, once a separator or the end of the path is reached. */
  function Flush(pending: string): seq<string>
  {
    if pending == [] then [] else [pending]
  }

  /** The tokens of `path`, given that `pending` holds the characters read since the last separator. */
  function SplitFrom(path: string, pending: string): seq<string>
    decreases |path|
  {
    if path == [] then Flush(pending)
    else if IsSeparator(path[0]) then Flush(pending) + SplitFrom(path[1..], [])
    else SplitFrom(path[1..], pending + [path[0]])
  }

  /** `[key for key in re.split(r'\.|\[|\]', path) if key]` */
  function Tokens(path: string): seq<string>
  {
    SplitFrom(path, [])
  }

  lemma {:induction false} SplitFromWords(path: string, pending: string)
    requires pending == [] || IsWord(pending)
    ensures forall t :: t in SplitFrom(path, pending) ==> IsWord(t)
  {
    if path != [] {
      if IsSeparator(path[0]) {
        SplitFromWords(path[1..], []);
      } else {
        SplitFromWords(path[1..], pending + [path[0]]);
      }
    }
  }

  /** Every token is non-empty and contains no separator. */
  lemma TokensAreWords(path: string)
    ensures forall t :: t in Tokens(path) ==> IsWord(t)
  {
    SplitFromWords(path, []);
  }

  lemma {:induction false} SplitFromAtSeparator(a: string, c: char, b: string, pending: string)
    requires IsSeparator(c)
    ensures SplitFrom(a + [c] + b, pending) == SplitFrom(a, pending) + SplitFrom(b, [])
  {
    if a == [] {
      assert a + [c] + b == [c] + b;
      assert ([c] + b)[1..] == b;
    } else {
      assert (a + [c] + b)[0] == a[0];
      assert (a + [c] + b)[1..] == a[1..] + [c] + b;
      if IsSeparator(a[0]) {
        SplitFromAtSeparator(a[1..], c, b, []);
      } else {
        SplitFromAtSeparator(a[1..], c, b, pending + [a[0]]);
      }
    }
  }

  /** A separator cuts a path into two independent halves. */
  lemma TokensAtSeparator(a: string, c: char, b: string)
    requires IsSeparator(c)
    ensures Tokens(a + [c] + b) == Tokens(a) + Tokens(b)
  {
    SplitFromAtSeparator(a, c, b, []);
  }

  lemma {:induction false} SplitFromWord(w: string, pending: string)
    requires forall i :: 0 <= i < |w| ==> !IsSeparator(w[i])
    ensures SplitFrom(w, pending) == Flush(pending + w)
  {
    if w == [] {
      assert pending + w == pending;
    } else {
      assert pending + [w[0]] + w[1..] == pending + w;
      SplitFromWord(w[1..], pending + [w[0]]);
    }
  }

  /** A word is a single token. */
  lemma TokensOfWord(w: string)
    requires IsWord(w)
    ensures Tokens(w) == [w]
  {
    SplitFromWord(w, []);
    assert [] + w == w;
  }

  lemma {:induction false} SplitFromSeparators(s: string)
    requires forall i :: 0 <= i < |s| ==> IsSeparator(s[i])
    ensures SplitFrom(s, []) == []
  {
    if s != [] {
      SplitFromSeparators(s[1..]);
    }
  }

  /**
   * The three spellings `a[i].c`, `a.i.c` and `a..i.c` give the same tokens, `[a, i, c]`:
   * brackets and dots are interchangeable, and runs of separators count as one.
   */
  lemma {:induction false} EquivalentSpellings(a: string, i: string, c: string)
    requires IsWord(a) && IsWord(i) && IsWord(c)
    ensures Tokens(a + "[" + i + "]." + c) == [a, i, c]
    ensures Tokens(a + "." + i + "." + c) == [a, i, c]
    ensures Tokens(a + ".." + i + "." + c) == [a, i, c]
  {
    TokensOfWord(a);
    TokensOfWord(i);
    TokensOfWord(c);
    assert Tokens(".") == [] by { SplitFromSeparators("."); }
    assert Tokens("") == [];
    TokensAtSeparator(i + "]", '.', c);
    assert i + "]" + "." + c == (i + "]") + ['.'] + c;
    TokensAtSeparator(i, ']', "");
    assert i + "]" == i + [']'] + "";
    TokensAtSeparator(a, '[', i + "]." + c);
    assert a + "[" + i + "]." + c == a + ['['] + (i + "]." + c);
    assert i + "]." + c == (i + "]") + ['.'] + c;

    TokensAtSeparator(i, '.', c);
    assert i + "." + c == i + ['.'] + c;
    TokensAtSeparator(a, '.', i + "." + c);
    assert a + "." + i + "." + c == a + ['.'] + (i + "." + c);

    TokensAtSeparator(a, '.', "." + i + "." + c);
    assert a + ".." + i + "." + c == a + ['.'] + ("." + i + "." + c);
    TokensAtSeparator("", '.', i + "." + c);
    assert "." + i + "." + c == "" + ['.'] + (i + "." + c);
  }

  /** Python's `int(token)` for tokens made of an optional sign and ASCII digits. */
  function ParseInt(token: string): Option<int>
  {
    if token != [] && (token[0] == '-' || token[0] == '+') then
      var digits := token[1..];
      if digits != [] && AllDigits(digits) then
        Some(if token[0] == '-' then -(DigitsValue(digits) as int) else DigitsValue(digits))
      else None
    else if token != [] && AllDigits(token) then Some(DigitsValue(token))
    else None
  }

  /** One token applied to one node: a dict key, a list index (negative ones count from the end), or a miss. */
  function Step(node: Json, token: string): Option<Json>
  {
    match node
    case JArray(items) =>
      (match ParseInt(token)
       case None => None
       case Some(n) =>
         if -|items| <= n < |items| then Some(items[if n < 0 then n + |items| else n]) else None)
    case JObject(members) => Lookup(members, token)
    case _ => None
  }

  /** The value reached by following `tokens` from `node`, or `None` at the first miss. */
  function Resolve(node: Json, tokens: seq<string>): Option<Json>
    decreases |tokens|
  {
    if tokens == [] then Some(node)
    else
      match Step(node, tokens[0])
      case None => None
      case Some(next) => Resolve(next, tokens[1..])
  }

  /** `get_value_at_json_path(doc, path)`: a miss comes back as null, as Python's `None` does. */
  function GetValueAtJsonPath(doc: Json, path: string): Json
  {
    match Resolve(doc, Tokens(path))
    case None => JNull
    case Some(v) => v
  }

  /** The four ways a single step misses, and no others. */
  lemma StepMisses(node: Json, token: string)
    ensures Step(node, token).None? <==>
      || (node.JObject? && token !in Keys(node.members))
      || (node.JArray? && ParseInt(token).None?)
      || (node.JArray? && ParseInt(token).Some? &&
          !(-|node.items| <= ParseInt(token).value < |node.items|))
      || (!node.JObject? && !node.JArray?)
  {
  }

  /** Resolving `t1 + t2` is resolving `t2` from where `t1` leads; a miss stays a miss. */
  lemma {:induction false} ResolveAppend(node: Json, t1: seq<string>, t2: seq<string>)
    ensures Resolve(node, t1 + t2) ==
      match Resolve(node, t1)
      case None => None
      case Some(mid) => Resolve(mid, t2)
    decreases |t1|
  {
    if t1 != [] {
      assert (t1 + t2)[0] == t1[0];
      assert (t1 + t2)[1..] == t1[1..] + t2;
      match Step(node, t1[0])
      case None =>
      case Some(next) => ResolveAppend(next, t1[1..], t2);
    } else {
      assert t1 + t2 == t2;
    }
  }

  /** A path whose first token is a key the dict lacks resolves to null, whatever follows. */
  lemma AbsentHeadMisses(members: Object, head: string, rest: string)
    requires IsWord(head) && head !in Keys(members)
    requires rest == [] || IsSeparator(rest[0])
    ensures GetValueAtJsonPath(JObject(members), head + rest) == JNull
  {
    TokensOfWord(head);
    if rest == [] {
      assert head + rest == head;
    } else {
      assert head + rest == head + [rest[0]] + rest[1..];
      TokensAtSeparator(head, rest[0], rest[1..]);
      assert Tokens(head + rest)[0] == head;
    }
  }

  /** A path that is a single key reads that key of a dict, null when it is absent. */
  lemma KeyPath(members: Object, key: string)
    requires IsWord(key)
    ensures GetValueAtJsonPath(JObject(members), key) == Field(members, key)
  {
    TokensOfWord(key);
    assert Step(JObject(members), key) == Lookup(members, key);
    assert [key][1..] == [];
    assert Resolve(JObject(members), [key]) == Lookup(members, key);
  }

  /** `outer.inner` reads `inner` of the dict stored at `outer`. */
  lemma DottedKeyPath(members: Object, outer: string, inner: string, nested: Object)
    requires IsWord(outer) && IsWord(inner)
    requires Lookup(members, outer) == Some(JObject(nested))
    ensures GetValueAtJsonPath(JObject(members), outer + "." + inner) == Field(nested, inner)
  {
    TokensOfWord(outer);
    TokensOfWord(inner);
    assert outer + "." + inner == outer + ['.'] + inner;
    TokensAtSeparator(outer, '.', inner);
    assert [outer] + [inner] == [outer, inner];
    assert Tokens(outer + "." + inner) == [outer, inner];
    assert Step(JObject(members), outer) == Some(JObject(nested));
    assert [outer, inner][1..] == [inner];
    assert Step(JObject(nested), inner) == Lookup(nested, inner);
    assert [inner][1..] == [];
    assert Resolve(JObject(nested), [inner]) == Lookup(nested, inner);
  }

  /** A path made only of separators has no tokens and yields the document itself. */
  lemma EmptyPathIsDocument(doc: Json, path: string)
    requires forall i :: 0 <= i < |path| ==> IsSeparator(path[i])
    ensures GetValueAtJsonPath(doc, path) == doc
  {
    SplitFromSeparators(path);
  }

  /** Reading a decimal spelling back as an integer. */
  lemma ParseDecimal(n: nat)
    ensures ParseInt(DecimalString(n)) == Some(n)
    ensures ParseInt("-" + DecimalString(n)) == Some(-(n as int))
  {
    DecimalStringValue(n);
    var s := DecimalString(n);
    assert s[0] != '-' && s[0] != '+' by { assert IsDigit(s[0]); }
    assert ("-" + s)[1..] == s;
  }

  /** A decimal token indexes a list from the front; past the end it misses. */
  lemma {:induction false} IndexFromFront(items: seq<Json>, k: nat)
    ensures Step(JArray(items), DecimalString(k)) == if k < |items| then Some(items[k]) else None
  {
    ParseDecimal(k);
  }

  /** `-k` indexes a list from its end, as Python does; beyond the front it misses. */
  lemma {:induction false} IndexFromEnd(items: seq<Json>, k: nat)
    requires k > 0
    ensures Step(JArray(items), "-" + DecimalString(k)) ==
      if k <= |items| then Some(items[|items| - k]) else None
  {
    ParseDecimal(k);
  }

  /** The resolver's unit test on a nested dict: `person.name` gives `"John"`. */
  lemma NestedDictExample(doc: Json, path: string)
    requires doc == JObject([Member("person", JObject([Member("name", JStr("John")), Member("age", JInt(30))]))])
    requires path == "person.name"
    ensures GetValueAtJsonPath(doc, path) == JStr("John")
  {
    var person := [Member("name", JStr("John")), Member("age", JInt(30))];
    assert path == "person" + "." + "name";
    DottedKeyPath(doc.members, "person", "name", person);
  }

  /** The resolver's unit test on a list inside a dict: `users[0].age` gives `30`. */
  lemma NestedListExample(doc: Json, path: string)
    requires doc == JObject([Member("users", JArray([
        JObject([Member("name", JStr("John")), Member("age", JInt(30))]),
        JObject([Member("name", JStr("Jane")), Member("age", JInt(25))])]))])
    requires path == "users[0].age"
    ensures GetValueAtJsonPath(doc, path) == JInt(30)
  {
    assert path == "users" + "[" + "0" + "]." + "age";
    EquivalentSpellings("users", "0", "age");
    assert Tokens(path) == ["users", "0", "age"];
    var users := doc.members[0].value;
    var john := JObject([Member("name", JStr("John")), Member("age", JInt(30))]);
    assert Step(doc, "users") == Some(users);
    assert DecimalString(0) == "0";
    IndexFromFront(users.items, 0);
    assert Step(users, "0") == Some(john);
    assert Step(john, "age") == Some(JInt(30));
    assert Resolve(john, ["age"]) == Some(JInt(30));
    assert ["users", "0", "age"][1..][1..] == ["age"];
    assert Resolve(users, ["0", "age"]) == Some(JInt(30));
  }

  /** A miss on an empty dict gives null. */
  lemma EmptyDictExample(doc: Json, path: string)
    requires doc == JObject([]) && path == "a.b"
    ensures GetValueAtJsonPath(doc, path) == JNull
  {
    TokensOfWord("a");
    TokensOfWord("b");
    assert path == "a" + ['.'] + "b";
    TokensAtSeparator("a", '.', "b");
    assert Tokens(path) == ["a", "b"];
  }
}
