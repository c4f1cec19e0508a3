/** Shared vocabulary: options, results, and the duplicate-removing list
    selection that scopes and audiences go through everywhere. */
module Basics {

  datatype Option<+T> = None | Some(value: T)

  datatype Result<+T, +E> = Ok(value: T) | Err(error: E)

  /** No value occurs twice. */
  ghost predicate NoDup(s: seq<string>) {
    forall i, j :: 0 <= i < j < |s| ==> s[i] != s[j]
  }

  ghost predicate SubsetOf(s: seq<string>, t: seq<string>) {
    forall x :: x in s ==> x in t
  }

  /** The values of `s` at their first occurrences, in order. */
  function Dedup(s: seq<string>): (r: seq<string>)
    ensures NoDup(r)
    ensures forall x :: x in r <==> x in s
  {
    if s == [] then [] else
      var d := Dedup(s[..|s|-1]);
      var x := s[|s|-1];
      if x in d then d else d + [x]
  }

  lemma {:induction false} DedupIdentity(s: seq<string>)
    requires NoDup(s)
    ensures Dedup(s) == s
  {
    if s != [] {
      DedupIdentity(s[..|s|-1]);
      assert s == s[..|s|-1] + [s[|s|-1]];
    }
  }

  lemma {:induction false} DedupAppend(s: seq<string>, x: string)
    ensures Dedup(s + [x]) == if x in s then Dedup(s) else Dedup(s) + [x]
  {
    assert (s + [x])[..|s|] == s;
  }

  /** What selecting `requested` out of `allowed` yields: nothing if a value is
      not allowed, and otherwise the requested values without duplicates. */
  ghost function Selection(allowed: seq<string>, requested: seq<string>): Option<seq<string>> {
    if SubsetOf(requested, allowed) then Some(Dedup(requested)) else None
  }

  /** The selecting loop that subsetOf, narrowed, narrowScopes, validateApproval
      and issueGrant share. */
  method Select(allowed: seq<string>, requested: seq<string>) returns (r: Option<seq<string>>)
    ensures r == Selection(allowed, requested)
  {
    var out: seq<string> := [];
    for i := 0 to |requested|
      invariant SubsetOf(requested[..i], allowed)
      invariant out == Dedup(requested[..i])
    {
      var v := requested[i];
      if v !in allowed {
        assert v in requested && !SubsetOf(requested, allowed);
        return None;
      }
      assert requested[..i+1] == requested[..i] + [v];
      DedupAppend(requested[..i], v);
      if v !in out {
        out := out + [v];
      }
    }
    assert requested[..|requested|] == requested;
    return Some(out);
  }
}
