/** Function signatures as `inspect.signature` reports them. */
module Signatures {
  import opened Values

  /** `inspect.Parameter.kind`. */
  datatype InspectKind = PositionalOnly | PositionalOrKeyword | VarPositional | KeywordOnly | VarKeyword

  /** One parameter: its name, kind, annotation (absent when `Signature.empty`)
      and default (absent when `Signature.empty`). */
  datatype Parameter = Parameter(name: string, kind: InspectKind, annotation: Option<TypeHint>, default: Option<Value>)

  /** The order Python imposes on parameter kinds within a signature. */
  function KindRank(k: InspectKind): nat
  {
    match k
    case PositionalOnly => 0
    case PositionalOrKeyword => 1
    case VarPositional => 2
    case KeywordOnly => 3
    case VarKeyword => 4
  }

  predicate IsPositionalKind(k: InspectKind)
  {
    k == PositionalOnly || k == PositionalOrKeyword
  }

  /** `q` may come after `p` in a `def`: kinds in order, at most one `*args` and one
      `**kwargs`, distinct names, and no positional parameter without a default after a
      positional one with a default. */
  predicate Compatible(p: Parameter, q: Parameter)
  {
    && KindRank(p.kind) <= KindRank(q.kind)
    && !(p.kind == VarKeyword && q.kind == VarKeyword)
    && !(p.kind == VarPositional && q.kind == VarPositional)
    && p.name != q.name
    && (IsPositionalKind(p.kind) && IsPositionalKind(q.kind) && p.default.Some? ==> q.default.Some?)
  }

  /** A signature Python accepts in a `def`. */
  predicate LegalSignature(ps: seq<Parameter>)
  {
    forall i, j :: 0 <= i < j < |ps| ==> Compatible(ps[i], ps[j])
  }

  /** `params[slice(start, None)]`. */
  function Slice(ps: seq<Parameter>, start: nat): (r: seq<Parameter>)
    ensures start <= |ps| ==> r == ps[start..]
    ensures start > |ps| ==> r == []
  {
    if start <= |ps| then ps[start..] else []
  }

  /** Dropping leading parameters keeps a signature legal. */
  lemma LegalSignatureSuffix(ps: seq<Parameter>, start: nat)
    requires LegalSignature(ps)
    ensures LegalSignature(Slice(ps, start))
  {
    if start <= |ps| {
      var s := ps[start..];
      assert forall i :: 0 <= i < |s| ==> s[i] == ps[start + i];
    }
  }

  predicate HasVarKeyword(ps: seq<Parameter>)
  {
    exists i :: 0 <= i < |ps| && ps[i].kind == VarKeyword
  }

  /** The parameters that are not `**kwargs`, in signature order. */
  function NonKwargs(ps: seq<Parameter>): (r: seq<Parameter>)
    ensures |r| <= |ps|
  {
    if |ps| == 0 then []
    else if ps[0].kind == VarKeyword then NonKwargs(ps[1..])
    else [ps[0]] + NonKwargs(ps[1..])
  }

  /** `NonKwargs` keeps exactly the parameters that are not `**kwargs`. */
  lemma {:induction false} NonKwargsMembers(ps: seq<Parameter>)
    ensures forall p :: p in NonKwargs(ps) <==> p in ps && p.kind != VarKeyword
  {
    if |ps| > 0 {
      NonKwargsMembers(ps[1..]);
      assert ps == [ps[0]] + ps[1..];
    }
  }

  lemma {:induction false} NonKwargsAppend(a: seq<Parameter>, b: seq<Parameter>)
    ensures NonKwargs(a + b) == NonKwargs(a) + NonKwargs(b)
  {
    if |a| > 0 {
      assert (a + b)[1..] == a[1..] + b;
      NonKwargsAppend(a[1..], b);
    } else {
      assert a + b == b;
    }
  }

  /** Without `**kwargs` every parameter is kept, in order. */
  lemma {:induction false} NonKwargsWithoutVarKeyword(ps: seq<Parameter>)
    requires !HasVarKeyword(ps)
    ensures NonKwargs(ps) == ps
  {
    if |ps| > 0 {
      assert !HasVarKeyword(ps[1..]) by {
        forall i | 0 <= i < |ps[1..]| ensures ps[1..][i].kind != VarKeyword {
          assert ps[1..][i] == ps[i + 1];
        }
      }
      NonKwargsWithoutVarKeyword(ps[1..]);
      assert ps == [ps[0]] + ps[1..];
    }
  }

  /** In a legal signature `**kwargs`, if present, is the last parameter, so dropping it
      leaves the other parameters as they were. */
  lemma NonKwargsOfLegal(ps: seq<Parameter>)
    requires LegalSignature(ps)
    ensures HasVarKeyword(ps) ==> |ps| > 0 && ps[|ps| - 1].kind == VarKeyword && NonKwargs(ps) == ps[..|ps| - 1]
    ensures !HasVarKeyword(ps) ==> NonKwargs(ps) == ps
  {
    if HasVarKeyword(ps) {
      var k :| 0 <= k < |ps| && ps[k].kind == VarKeyword;
      VarKeywordIsLast(ps, k);
      var front := ps[..k];
      assert !HasVarKeyword(front) by {
        forall i | 0 <= i < |front| ensures front[i].kind != VarKeyword {
          assert front[i] == ps[i];
        }
      }
      NonKwargsWithoutVarKeyword(front);
      assert ps == front + [ps[k]];
      NonKwargsAppend(front, [ps[k]]);
      assert NonKwargs([ps[k]]) == [];
    } else {
      NonKwargsWithoutVarKeyword(ps);
    }
  }

  lemma VarKeywordIsLast(ps: seq<Parameter>, k: nat)
    requires LegalSignature(ps)
    requires k < |ps| && ps[k].kind == VarKeyword
    ensures k == |ps| - 1
  {
    var last := |ps| - 1;
    assert k < last ==> Compatible(ps[k], ps[last]);
    assert ps[last].kind == VarKeyword;
  }

  /** A prefix of a legal signature is legal. */
  lemma LegalSignaturePrefix(ps: seq<Parameter>, n: nat)
    requires LegalSignature(ps) && n <= |ps|
    ensures LegalSignature(ps[..n])
  {
  }
}
