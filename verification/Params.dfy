/** Space-delimited parameters (params.go), scope tokens (authorize.go), and the
    unreserved characters of RFC 3986 (pkce.go). */
module Params {
  import opened Basics

  /** strings.Split(s, " "). */
  function Split(s: string): (r: seq<string>)
    ensures r != []
  {
    if s == "" then [""]
    else
      var rest := Split(s[1..]);
      if s[0] == ' ' then [""] + rest
      else [[s[0]] + rest[0]] + rest[1..]
  }

  /** strings.Join(list, " "). */
  function Join(list: seq<string>): string {
    if list == [] then ""
    else if |list| == 1 then list[0]
    else list[0] + " " + Join(list[1..])
  }

  function NonEmpty(list: seq<string>): (r: seq<string>)
    ensures forall x :: x in r <==> x in list && x != ""
  {
    if list == [] then []
    else
      var rest := NonEmpty(list[..|list|-1]);
      var x := list[|list|-1];
      if x == "" then rest else rest + [x]
  }

  /** What splitSpaces is for: the distinct non-empty fields, in order. */
  function Fields(s: string): seq<string> {
    Dedup(NonEmpty(Split(s)))
  }

  method SplitSpaces(s: string) returns (out: seq<string>)
    ensures out == Fields(s)
    ensures NoDup(out) && "" !in out
  {
    out := [];
    var parts := Split(s);
    for i := 0 to |parts|
      invariant out == Dedup(NonEmpty(parts[..i]))
    {
      var f := parts[i];
      assert parts[..i+1][..i] == parts[..i];
      DedupAppend(NonEmpty(parts[..i]), f);
      if f != "" && f !in out {
        out := out + [f];
      }
    }
    assert parts[..|parts|] == parts;
  }

  ghost predicate SpaceFree(s: string) { ' ' !in s }

  lemma {:induction false} SplitSpaceFree(s: string)
    ensures forall x :: x in Split(s) ==> SpaceFree(x)
  {
    if s != "" {
      SplitSpaceFree(s[1..]);
      var rest := Split(s[1..]);
      assert rest[0] in rest;
      forall x | x in Split(s) ensures SpaceFree(x) {
        assert x in rest || x == "" || x == [s[0]] + rest[0];
      }
    }
  }

  lemma {:induction false} SplitField(t: string, s: string)
    requires SpaceFree(t)
    ensures Split(t + " " + s) == [t] + Split(s)
  {
    var all := t + " " + s;
    if t == "" {
      assert all[0] == ' ' && all[1..] == s;
    } else {
      assert all[0] == t[0] && t[0] in t;
      assert (t + " " + s)[1..] == t[1..] + " " + s;
      SplitField(t[1..], s);
      assert ([t[1..]] + Split(s))[1..] == Split(s) && [t[0]] + t[1..] == t;
    }
  }

  lemma {:induction false} SplitSingle(t: string)
    requires SpaceFree(t)
    ensures Split(t) == [t]
  {
    if t != "" {
      assert t[0] in t;
      SplitSingle(t[1..]);
      assert [t[0]] + t[1..] == t;
    }
  }

  lemma {:induction false} SplitJoin(list: seq<string>)
    requires list != [] && forall x :: x in list ==> SpaceFree(x)
    ensures Split(Join(list)) == list
  {
    if |list| == 1 {
      SplitSingle(list[0]);
    } else {
      SplitField(list[0], Join(list[1..]));
      SplitJoin(list[1..]);
    }
  }

  lemma {:induction false} NonEmptyIdentity(list: seq<string>)
    requires "" !in list
    ensures NonEmpty(list) == list
  {
    if list != [] {
      NonEmptyIdentity(list[..|list|-1]);
      assert list == list[..|list|-1] + [list[|list|-1]];
    }
  }

  /** Joining and splitting gives back every duplicate-free list of scopes. */
  lemma FieldsOfJoin(list: seq<string>)
    requires NoDup(list) && forall x :: x in list ==> SpaceFree(x) && x != ""
    ensures Fields(Join(list)) == list
  {
    if list == [] {
      assert Split("") == [""];
      assert NonEmpty([""]) == [];
    } else {
      SplitJoin(list);
      NonEmptyIdentity(list);
      DedupIdentity(list);
    }
  }

  /** Splitting what was joined from a split changes nothing. */
  lemma SplitIdempotent(s: string)
    ensures Fields(Join(Fields(s))) == Fields(s)
  {
    SplitSpaceFree(s);
    FieldsOfJoin(Fields(s));
  }

  predicate ScopeChar(c: char) {
    0x21 <= c as int <= 0x7e && c != '"' && c != '\\'
  }

  /** scope-token of RFC 6749 section 3.3. */
  ghost predicate ScopeToken(s: string) {
    s != "" && forall c :: c in s ==> ScopeChar(c)
  }

  method ValidScopeToken(s: string) returns (ok: bool)
    ensures ok <==> ScopeToken(s)
  {
    for i := 0 to |s|
      invariant forall k :: 0 <= k < i ==> ScopeChar(s[k])
    {
      var c := s[i];
      if c as int < 0x21 || c as int > 0x7e || c == '"' || c == '\\' {
        assert c in s;
        return false;
      }
    }
    return s != "";
  }

  /** The scope parameter of a token response names exactly the granted scopes. */
  lemma ScopeListRoundTrip(scopes: seq<string>)
    requires NoDup(scopes) && forall s :: s in scopes ==> ScopeToken(s)
    ensures Fields(Join(scopes)) == scopes
  {
    forall s | s in scopes ensures SpaceFree(s) && s != "" {
      assert !ScopeChar(' ');
    }
    FieldsOfJoin(scopes);
  }

  predicate UnreservedChar(c: char) {
    'a' <= c <= 'z' || 'A' <= c <= 'Z' || '0' <= c <= '9' || c in "-._~"
  }

  predicate Unreserved(s: string) {
    forall i :: 0 <= i < |s| ==> UnreservedChar(s[i])
  }

  method IsUnreserved(s: string) returns (ok: bool)
    ensures ok <==> Unreserved(s)
  {
    for i := 0 to |s|
      invariant forall k :: 0 <= k < i ==> UnreservedChar(s[k])
    {
      var c := s[i];
      if 'a' <= c <= 'z' || 'A' <= c <= 'Z' || '0' <= c <= '9' {
      } else if c == '-' || c == '.' || c == '_' || c == '~' {
      } else {
        return false;
      }
    }
    return true;
  }
}
