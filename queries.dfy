/** The read side of the handlers: the store's filtered selects (first match and all
    matches) and filtered counts, and the client summary built from them. */
module Queries {
  import opened Rows

  /** `select ... from clientes where codigo_referido = code limit 1`, rows taken in table order. */
  function FirstWithCode(clientes: seq<Cliente>, code: string): (r: Option<Cliente>)
    ensures r.None? <==> forall i :: 0 <= i < |clientes| ==> clientes[i].codigoReferido != code
    ensures r.Some? ==> exists k :: 0 <= k < |clientes| && clientes[k] == r.value &&
                          r.value.codigoReferido == code &&
                          forall j :: 0 <= j < k ==> clientes[j].codigoReferido != code
  {
    if clientes == [] then None
    else if clientes[0].codigoReferido == code then Some(clientes[0])
    else
      var r := FirstWithCode(clientes[1..], code);
      assert r.Some? ==> exists k :: 1 <= k < |clientes| && clientes[k] == r.value &&
                           forall j :: 0 <= j < k ==> clientes[j].codigoReferido != code
      by {
        if r.Some? {
          var k :| 0 <= k < |clientes[1..]| && clientes[1..][k] == r.value &&
                   forall j :: 0 <= j < k ==> clientes[1..][j].codigoReferido != code;
          assert clientes[k + 1] == r.value;
          assert forall j :: 0 <= j < k + 1 ==> clientes[j].codigoReferido != code by {
            forall j | 0 <= j < k + 1 ensures clientes[j].codigoReferido != code {
              if j > 0 { assert clientes[j] == clientes[1..][j - 1]; }
            }
          }
        }
      }
      r
  }

  /** Codes are not checked for uniqueness: a client registered later with a code some
      earlier client already holds is never the one the lookup finds. A new client is found
      by its code exactly when no earlier client holds it. */
  lemma {:induction false} FirstWithCodeSnoc(clientes: seq<Cliente>, nuevo: Cliente, code: string)
    ensures FirstWithCode(clientes + [nuevo], code) ==
            if FirstWithCode(clientes, code).Some? then FirstWithCode(clientes, code)
            else if nuevo.codigoReferido == code then Some(nuevo)
            else None
  {
    if clientes == [] {
      assert (clientes + [nuevo])[1..] == [];
    } else {
      assert (clientes + [nuevo])[1..] == clientes[1..] + [nuevo];
      FirstWithCodeSnoc(clientes[1..], nuevo, code);
    }
  }

  // ---------------------------------------------------------------- referidos

  /** The filter `cliente_owner_id = c`; a null owner matches no client. */
  predicate Owns(r: Referido, c: Id)
  {
    r.clienteOwnerId == Some(c)
  }

  /** `select count(*) from referidos where cliente_owner_id = c`. */
  function CountOwned(refs: seq<Referido>, c: Id): (n: nat)
    ensures n <= |refs|
  {
    if refs == [] then 0
    else (if Owns(refs[0], c) then 1 else 0) + CountOwned(refs[1..], c)
  }

  /** The positions of the rows owned by c: the reference definition of the count. */
  ghost function OwnedIndices(refs: seq<Referido>, c: Id): set<int>
  {
    set i | 0 <= i < |refs| && Owns(refs[i], c)
  }

  /** The ids of the referrals owned by c, as a set. */
  ghost function OwnedReferralIds(refs: seq<Referido>, c: Id): set<Id>
  {
    set r | r in refs && Owns(r, c) :: r.id
  }

  /** `select id from referidos where cliente_owner_id = c`, mapped to the ids. */
  function OwnedIds(refs: seq<Referido>, c: Id): (ids: seq<Id>)
    ensures |ids| == CountOwned(refs, c)
    ensures forall x :: x in ids <==> x in OwnedReferralIds(refs, c)
  {
    if refs == [] then []
    else
      var rest := OwnedIds(refs[1..], c);
      assert forall r :: r in refs <==> r == refs[0] || r in refs[1..];
      (if Owns(refs[0], c) then [refs[0].id] else []) + rest
  }

  lemma {:induction false} CountOwnedSnoc(refs: seq<Referido>, r: Referido, c: Id)
    ensures CountOwned(refs + [r], c) == CountOwned(refs, c) + (if Owns(r, c) then 1 else 0)
  {
    if refs == [] {
      assert (refs + [r])[1..] == [];
    } else {
      assert (refs + [r])[1..] == refs[1..] + [r];
      CountOwnedSnoc(refs[1..], r, c);
    }
  }

  lemma {:induction false} OwnedIdsSnoc(refs: seq<Referido>, r: Referido, c: Id)
    ensures OwnedIds(refs + [r], c) == OwnedIds(refs, c) + (if Owns(r, c) then [r.id] else [])
  {
    if refs == [] {
      assert (refs + [r])[1..] == [];
    } else {
      assert (refs + [r])[1..] == refs[1..] + [r];
      OwnedIdsSnoc(refs[1..], r, c);
    }
  }

  /** The filtered count is the number of rows whose `cliente_owner_id` is c. */
  lemma {:induction false} CountOwnedIsCardinality(refs: seq<Referido>, c: Id)
    ensures CountOwned(refs, c) == |OwnedIndices(refs, c)|
  {
    if refs == [] {
      assert OwnedIndices(refs, c) == {};
    } else {
      var p, last := refs[..|refs| - 1], refs[|refs| - 1];
      assert refs == p + [last];
      CountOwnedIsCardinality(p, c);
      CountOwnedSnoc(p, last, c);
      assert OwnedIndices(refs, c) == OwnedIndices(p, c) + (if Owns(last, c) then {|p|} else {});
    }
  }

  // ------------------------------------------------------------- conversiones

  /** `select count(*) from conversiones where referido_id in ids`. */
  function CountReferencing(convs: seq<Conversion>, ids: seq<Id>): (n: nat)
    ensures n <= |convs|
  {
    if convs == [] then 0
    else (if convs[0].referidoId in ids then 1 else 0) + CountReferencing(convs[1..], ids)
  }

  /** The positions of the conversions whose `referido_id` is among ids. */
  ghost function ReferencingIndices(convs: seq<Conversion>, ids: seq<Id>): set<int>
  {
    set j | 0 <= j < |convs| && convs[j].referidoId in ids
  }

  lemma {:induction false} CountReferencingSnoc(convs: seq<Conversion>, v: Conversion, ids: seq<Id>)
    ensures CountReferencing(convs + [v], ids) == CountReferencing(convs, ids) + (if v.referidoId in ids then 1 else 0)
  {
    if convs == [] {
      assert (convs + [v])[1..] == [];
    } else {
      assert (convs + [v])[1..] == convs[1..] + [v];
      CountReferencingSnoc(convs[1..], v, ids);
    }
  }

  /** The filtered count is the number of conversions whose `referido_id` is among ids. */
  lemma {:induction false} CountReferencingIsCardinality(convs: seq<Conversion>, ids: seq<Id>)
    ensures CountReferencing(convs, ids) == |ReferencingIndices(convs, ids)|
  {
    if convs == [] {
      assert ReferencingIndices(convs, ids) == {};
    } else {
      var p, last := convs[..|convs| - 1], convs[|convs| - 1];
      assert convs == p + [last];
      CountReferencingIsCardinality(p, ids);
      CountReferencingSnoc(p, last, ids);
      assert ReferencingIndices(convs, ids) ==
             ReferencingIndices(p, ids) + (if last.referidoId in ids then {|p|} else {});
    }
  }

  /** A count over no ids is zero, whatever the conversions are. */
  lemma {:induction false} CountReferencingNoIds(convs: seq<Conversion>)
    ensures CountReferencing(convs, []) == 0
  {
    if convs != [] {
      CountReferencingNoIds(convs[1..]);
    }
  }

  // ------------------------------------------------------------------ summary

  /** The positions of the conversions, in any state, tied to a referral owned by c. */
  ghost function ConvertedIndices(refs: seq<Referido>, convs: seq<Conversion>, c: Id): set<int>
  {
    set j | 0 <= j < |convs| && convs[j].referidoId in OwnedReferralIds(refs, c)
  }

  /** What /clientes/:id/resumen reports when no store call fails. */
  function Summarize(refs: seq<Referido>, convs: seq<Conversion>, c: Id): (s: Summary)
    ensures s.clienteId == c
    ensures s.totalReferidos == |OwnedIndices(refs, c)|
    ensures s.totalConversiones == |ConvertedIndices(refs, convs, c)|
    ensures s.totalReferidos == 0 ==> s.totalConversiones == 0
  {
    var ids := OwnedIds(refs, c);
    CountOwnedIsCardinality(refs, c);
    CountReferencingIsCardinality(convs, ids);
    assert ConvertedIndices(refs, convs, c) == ReferencingIndices(convs, ids);
    CountReferencingNoIds(convs);
    assert |ids| == 0 ==> ids == [];
    Summary(c, CountOwned(refs, c), CountReferencing(convs, ids))
  }

  /** A new referral raises its owner's total_referidos by one and leaves every other
      client's summary as it was. */
  lemma SummarizeAfterReferido(refs: seq<Referido>, convs: seq<Conversion>, r: Referido, c: Id)
    ensures Summarize(refs + [r], convs, c).totalReferidos ==
            Summarize(refs, convs, c).totalReferidos + (if Owns(r, c) then 1 else 0)
    ensures !Owns(r, c) ==> Summarize(refs + [r], convs, c) == Summarize(refs, convs, c)
  {
    CountOwnedSnoc(refs, r, c);
    OwnedIdsSnoc(refs, r, c);
    assert !Owns(r, c) ==> OwnedIds(refs, c) + [] == OwnedIds(refs, c);
  }

  /** A new conversion, in any state, leaves every total_referidos alone and raises the
      total_conversiones of exactly the client owning its referral. */
  lemma SummarizeAfterConversion(refs: seq<Referido>, convs: seq<Conversion>, v: Conversion, c: Id)
    ensures Summarize(refs, convs + [v], c).totalReferidos == Summarize(refs, convs, c).totalReferidos
    ensures Summarize(refs, convs + [v], c).totalConversiones ==
            Summarize(refs, convs, c).totalConversiones + (if v.referidoId in OwnedReferralIds(refs, c) then 1 else 0)
  {
    CountReferencingSnoc(convs, v, OwnedIds(refs, c));
  }

  /** A redemption as /usarCodigo writes it (a referral with no `cliente_owner_id`, under a
      fresh id, and a conversion tied to that referral) is invisible to every summary. */
  lemma RedemptionInvisibleToSummary(refs: seq<Referido>, convs: seq<Conversion>, r: Referido, v: Conversion, c: Id)
    requires r.clienteOwnerId.None?
    requires forall i :: 0 <= i < |refs| ==> refs[i].id != r.id
    requires v.referidoId == r.id
    ensures Summarize(refs + [r], convs + [v], c) == Summarize(refs, convs, c)
  {
    SummarizeAfterReferido(refs, convs, r, c);
    SummarizeAfterConversion(refs + [r], convs, v, c);
    assert r.id !in OwnedReferralIds(refs + [r], c);
  }
}
