/** The replace chain (internal/common/string/replace): a list of
    replacements applied one after the other, each replacing every
    occurrence with `strings.Replace(s, old, new, -1)`. */
module Replace {
  import opened GoStrings

  /** `replacement{old, new}`; `NewReplacement(old, new)` is the constructor. */
  datatype Replacement = Replacement(pattern: string, substitute: string)

  /** The fold `Apply` computes: the replacements of rs in order, starting
      from s. */
  function ApplyAll(rs: seq<Replacement>, s: string): string
    decreases |rs|
  {
    if rs == [] then s else ApplyAll(rs[1..], Replace(s, rs[0].pattern, rs[0].substitute))
  }

  /** Applying a + b is applying a, then b. */
  lemma {:induction false} ApplyConcat(a: seq<Replacement>, b: seq<Replacement>, s: string)
    ensures ApplyAll(a + b, s) == ApplyAll(b, ApplyAll(a, s))
    decreases |a|
  {
    if a == [] {
      assert a + b == b;
    } else {
      assert (a + b)[1..] == a[1..] + b;
      ApplyConcat(a[1..], b, Replace(s, a[0].pattern, a[0].substitute));
    }
  }

  /** One more replacement at the end of a chain is applied last. */
  lemma ApplySnoc(rs: seq<Replacement>, r: Replacement, s: string)
    ensures ApplyAll(rs + [r], s) == Replace(ApplyAll(rs, s), r.pattern, r.substitute)
  {
    ApplyConcat(rs, [r], s);
    assert ApplyAll([r], ApplyAll(rs, s)) == ApplyAll([], Replace(ApplyAll(rs, s), r.pattern, r.substitute));
  }

  /** The chain `isEmpty` builds, which deletes spaces and then tabs, leaves
      nothing exactly when s holds only spaces and tabs. */
  lemma BlankChain(s: string)
    ensures ApplyAll([Replacement(" ", ""), Replacement("\t", "")], s) == "" <==>
      forall i :: 0 <= i < |s| ==> s[i] == ' ' || s[i] == '\t'
  {
    var rs := [Replacement(" ", ""), Replacement("\t", "")];
    var once := ReplaceAll(s, " ", "");
    var twice := ReplaceAll(once, "\t", "");
    assert rs[1..][1..] == [];
    assert ApplyAll(rs, s) == twice;
    if twice == "" {
      forall i | 0 <= i < |s|
        ensures s[i] == ' ' || s[i] == '\t'
      {
        DeleteCharMember(s, ' ', s[i]);
        DeleteCharMember(once, '\t', s[i]);
      }
    } else {
      var x := twice[0];
      DeleteCharMember(once, '\t', x);
      DeleteCharMember(s, ' ', x);
    }
  }

  /** `replaceChain`: its replacements, which `Extend` changes in place. */
  class Chain {
    var replacements: seq<Replacement>

    /** `NewChain(replacements...)` */
    constructor (replacements: seq<Replacement>)
      ensures this.replacements == replacements
    {
      this.replacements := replacements;
    }

    /** `Apply`: the fold over the replacements, in order; the chain is not
        changed. */
    method Apply(s: string) returns (r: string)
      ensures r == ApplyAll(replacements, s)
    {
      r := s;
      for i := 0 to |replacements|
        invariant ApplyAll(replacements[i..], r) == ApplyAll(replacements, s)
      {
        assert replacements[i..][1..] == replacements[i + 1..];
        r := Replace(r, replacements[i].pattern, replacements[i].substitute);
      }
    }

    /** `Copy`: a new chain with the same replacements. */
    method Copy() returns (c: Chain)
      ensures fresh(c) && c.replacements == replacements
    {
      c := new Chain(replacements);
    }

    /** `Extend`: the replacements are appended in order, and the same chain
        is returned. */
    method Extend(more: seq<Replacement>) returns (c: Chain)
      modifies this
      ensures c == this && replacements == old(replacements) + more
    {
      replacements := replacements + more;
      c := this;
    }
  }

  /** Extending a copy leaves the original as it was. */
  method ExtendCopy(original: Chain, more: seq<Replacement>) returns (extended: Chain)
    ensures fresh(extended)
    ensures original.replacements == old(original.replacements)
    ensures extended.replacements == original.replacements + more
  {
    var copy := original.Copy();
    extended := copy.Extend(more);
  }
}
