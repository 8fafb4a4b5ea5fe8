/**
 The holding list of the portfolio tracker and the two operations that change it:
 adding the holding described by the entry form (the draft) and removing holdings by id.

 React state is modelled as an explicit `Session` value; the timestamp id, the display
 date and the number parser are parameters of the add operation.
 */
module Holdings {

  /** One purchase lot: `amount` units of `symbol` bought at `purchasePrice` each. */
  datatype Holding = Holding(id: int, symbol: string, amount: real, purchasePrice: real, dateAdded: string)

  /** The three text fields of the entry form, exactly as typed or selected. */
  datatype Draft = Draft(symbol: string, amount: string, purchasePrice: string)

  /** The state the dashboard keeps between user events. */
  datatype Session = Session(portfolio: seq<Holding>, draft: Draft)

  /** The form as it starts out and as it is reset after a successful add. */
  const EmptyDraft: Draft := Draft("", "", "")

  /** A draft is refused when any of its three fields is the empty string. */
  predicate Incomplete(d: Draft)
  {
    d.symbol == "" || d.amount == "" || d.purchasePrice == ""
  }

  predicate IsLowerAscii(c: char)
  {
    'a' <= c <= 'z'
  }

  /** Upper-cases one ASCII letter; every other character is kept. */
  function UpperChar(c: char): (u: char)
    ensures !IsLowerAscii(u)
    ensures IsLowerAscii(c) ==> 'A' <= u <= 'Z' && u as int + 32 == c as int
    ensures !IsLowerAscii(c) ==> u == c
  {
    if IsLowerAscii(c) then (c as int - 32) as char else c
  }

  /** No ASCII lower-case letter occurs in `s`. */
  predicate IsUpper(s: string)
  {
    forall i :: 0 <= i < |s| ==> !IsLowerAscii(s[i])
  }

  /** Upper-cases a symbol, character by character. */
  function ToUpper(s: string): (r: string)
    ensures |r| == |s|
    ensures IsUpper(r)
    ensures forall i :: 0 <= i < |s| ==> r[i] == UpperChar(s[i])
  {
    if |s| == 0 then "" else [UpperChar(s[0])] + ToUpper(s[1..])
  }

  /** Upper-casing an already upper-case symbol changes nothing. */
  lemma ToUpperFixesUpper(s: string)
    requires IsUpper(s)
    ensures ToUpper(s) == s
  {
  }

  /** Upper-casing twice is the same as upper-casing once. */
  lemma ToUpperIdempotent(s: string)
    ensures ToUpper(ToUpper(s)) == ToUpper(s)
  {
  }

  /** The holding an add creates from a complete draft. */
  function NewHolding(d: Draft, id: int, dateAdded: string, parse: string -> real): Holding
  {
    Holding(id, ToUpper(d.symbol), parse(d.amount), parse(d.purchasePrice), dateAdded)
  }

  /**
   The "Add Holding" button. An incomplete draft leaves the whole session as it is;
   otherwise one holding is appended after all existing ones and the form is cleared.
   Only emptiness is checked: a non-numeric field is handed to `parse` like any other.
   */
  function AddHolding(s: Session, id: int, dateAdded: string, parse: string -> real): (r: Session)
    ensures Incomplete(s.draft) ==> r == s
    ensures !Incomplete(s.draft) ==>
              && |r.portfolio| == |s.portfolio| + 1
              && r.portfolio[..|s.portfolio|] == s.portfolio
              && r.portfolio[|s.portfolio|].id == id
              && r.portfolio[|s.portfolio|].symbol == ToUpper(s.draft.symbol)
              && r.portfolio[|s.portfolio|].amount == parse(s.draft.amount)
              && r.portfolio[|s.portfolio|].purchasePrice == parse(s.draft.purchasePrice)
              && r.portfolio[|s.portfolio|].dateAdded == dateAdded
              && r.draft == EmptyDraft
  {
    if Incomplete(s.draft) then s
    else Session(s.portfolio + [NewHolding(s.draft, id, dateAdded, parse)], EmptyDraft)
  }

  /** The number of holdings in `p` that carry `id`. */
  function CountId(p: seq<Holding>, id: int): nat
  {
    if |p| == 0 then 0 else (if p[0].id == id then 1 else 0) + CountId(p[1..], id)
  }

  /** `id` is carried by no holding of `p`. */
  predicate Fresh(p: seq<Holding>, id: int)
  {
    forall i :: 0 <= i < |p| ==> p[i].id != id
  }

  /**
   The trash button of a table row: keeps the holdings whose id differs from `id`,
   dropping every holding that carries it.
   */
  function RemoveHolding(p: seq<Holding>, id: int): (r: seq<Holding>)
    ensures |r| == |p| - CountId(p, id)
    ensures Fresh(r, id)
    ensures Fresh(p, id) ==> r == p
  {
    if |p| == 0 then []
    else if p[0].id == id then RemoveHolding(p[1..], id)
    else
      var q := RemoveHolding(p[1..], id);
      assert Fresh(p, id) ==> Fresh(p[1..], id) by {
        if Fresh(p, id) {
          forall i | 0 <= i < |p[1..]|
            ensures p[1..][i].id != id
          {
            assert p[1..][i] == p[i + 1];
          }
        }
      }
      [p[0]] + q
  }

  /** The holdings kept by a removal are exactly those of the list whose id differs. */
  lemma {:induction false} RemoveMembers(p: seq<Holding>, id: int)
    ensures forall h :: h in RemoveHolding(p, id) <==> h in p && h.id != id
  {
    if |p| > 0 {
      RemoveMembers(p[1..], id);
      assert p == [p[0]] + p[1..];
      forall h
        ensures h in p <==> h == p[0] || h in p[1..]
      {
      }
    }
  }

  /** Removal works on each part of a list separately, so the kept holdings stay in order. */
  lemma {:induction false} RemoveDistributes(a: seq<Holding>, b: seq<Holding>, id: int)
    ensures RemoveHolding(a + b, id) == RemoveHolding(a, id) + RemoveHolding(b, id)
  {
    if |a| == 0 {
      assert a + b == b;
    } else {
      var ab := a + b;
      assert ab[0] == a[0];
      assert ab[1..] == a[1..] + b;
      RemoveDistributes(a[1..], b, id);
      if a[0].id == id {
        calc {
          RemoveHolding(ab, id);
          RemoveHolding(a[1..] + b, id);
          RemoveHolding(a[1..], id) + RemoveHolding(b, id);
        }
      } else {
        calc {
          RemoveHolding(ab, id);
          [a[0]] + RemoveHolding(a[1..] + b, id);
          [a[0]] + (RemoveHolding(a[1..], id) + RemoveHolding(b, id));
          ([a[0]] + RemoveHolding(a[1..], id)) + RemoveHolding(b, id);
        }
      }
    }
  }

  /** Removing the same id a second time changes nothing. */
  lemma RemoveIdempotent(p: seq<Holding>, id: int)
    ensures RemoveHolding(RemoveHolding(p, id), id) == RemoveHolding(p, id)
  {
  }

  /** No two holdings share an id (the intent of the timestamp ids). */
  predicate UniqueIds(p: seq<Holding>)
  {
    forall i, j :: 0 <= i < j < |p| ==> p[i].id != p[j].id
  }

  /** Adding with a fresh id keeps the ids unique. */
  lemma AddKeepsIdsUnique(s: Session, id: int, dateAdded: string, parse: string -> real)
    requires UniqueIds(s.portfolio)
    requires Fresh(s.portfolio, id)
    ensures UniqueIds(AddHolding(s, id, dateAdded, parse).portfolio)
  {
  }

  /** A non-empty list has unique ids exactly when its head id is fresh for its tail and the tail has unique ids. */
  lemma UniqueIdsCons(p: seq<Holding>)
    requires |p| > 0
    ensures UniqueIds(p) <==> Fresh(p[1..], p[0].id) && UniqueIds(p[1..])
  {
  }

  /** Removing keeps the ids unique. */
  lemma {:induction false} RemoveKeepsIdsUnique(p: seq<Holding>, id: int)
    requires UniqueIds(p)
    ensures UniqueIds(RemoveHolding(p, id))
  {
    if |p| > 0 {
      UniqueIdsCons(p);
      RemoveKeepsIdsUnique(p[1..], id);
      if p[0].id != id {
        var q := RemoveHolding(p[1..], id);
        RemoveMembers(p[1..], id);
        forall i | 0 <= i < |q|
          ensures q[i].id != p[0].id
        {
          assert q[i] in p[1..];
          var m :| 0 <= m < |p[1..]| && p[1..][m] == q[i];
        }
        var r := [p[0]] + q;
        assert r[1..] == q;
        UniqueIdsCons(r);
      }
    }
  }

  /** With unique ids, the id at position `k` is carried by nothing before or after it. */
  lemma UniqueAround(p: seq<Holding>, k: nat)
    requires UniqueIds(p)
    requires k < |p|
    ensures Fresh(p[..k], p[k].id)
    ensures Fresh(p[k + 1..], p[k].id)
  {
    var b := p[k + 1..];
    forall m | 0 <= m < |b|
      ensures b[m].id != p[k].id
    {
      assert b[m] == p[k + 1 + m];
    }
  }

  /** Removing the id of `x` from `a + [x] + b`, where no holding of `a` or `b` carries it, leaves `a + b`. */
  lemma RemoveSplit(a: seq<Holding>, x: Holding, b: seq<Holding>)
    requires Fresh(a, x.id) && Fresh(b, x.id)
    ensures RemoveHolding(a + [x] + b, x.id) == a + b
  {
    RemoveDistributes(a + [x], b, x.id);
    RemoveDistributes(a, [x], x.id);
    assert [x][1..] == [];
    assert RemoveHolding([x], x.id) == [];
    assert RemoveHolding(a, x.id) + [] == a;
  }

  /**
   With unique ids, removing the id of the holding at position `k` removes exactly that
   holding: the list shrinks by one and every other holding is kept, in order.
   */
  lemma RemoveUnique(p: seq<Holding>, k: nat)
    requires UniqueIds(p)
    requires k < |p|
    ensures RemoveHolding(p, p[k].id) == p[..k] + p[k + 1..]
    ensures |RemoveHolding(p, p[k].id)| == |p| - 1
  {
    UniqueAround(p, k);
    assert p == p[..k] + [p[k]] + p[k + 1..];
    RemoveSplit(p[..k], p[k], p[k + 1..]);
  }

  /** Removing the holding that was just added with a fresh id restores the old list. */
  lemma RemoveUndoesAdd(s: Session, id: int, dateAdded: string, parse: string -> real)
    requires Fresh(s.portfolio, id)
    ensures RemoveHolding(AddHolding(s, id, dateAdded, parse).portfolio, id) == s.portfolio
  {
    if !Incomplete(s.draft) {
      RemoveDistributes(s.portfolio, [NewHolding(s.draft, id, dateAdded, parse)], id);
    }
  }

  /**
   When the draft symbol was picked from a list of upper-case symbols, the added
   holding carries that very symbol.
   */
  lemma AddKeepsSelectedSymbol(s: Session, id: int, dateAdded: string, parse: string -> real)
    requires !Incomplete(s.draft)
    requires IsUpper(s.draft.symbol)
    ensures AddHolding(s, id, dateAdded, parse).portfolio[|s.portfolio|].symbol == s.draft.symbol
  {
  }
}
