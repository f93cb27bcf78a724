/** The estado gate of /registrarConversion: the request's `estado` is accepted when its
    lower-cased form is one of the three permitted states. */
module Estados {

  const PENDIENTE := "pendiente"
  const CONFIRMADO := "confirmado"
  const RECHAZADO := "rechazado"

  /** The permitted states, in the order the handler lists them. */
  const ESTADOS_VALIDOS: seq<string> := [PENDIENTE, CONFIRMADO, RECHAZADO]

  predicate IsUpper(ch: char) { 'A' <= ch <= 'Z' }

  /** Lower-casing of one character, on the ASCII letters. */
  function LowerChar(ch: char): char
  {
    if IsUpper(ch) then ch - 'A' + 'a' else ch
  }

  /** `String.prototype.toLowerCase`, restricted to the ASCII letters (see README). */
  function Lower(s: string): (r: string)
    ensures |r| == |s|
  {
    seq(|s|, i requires 0 <= i < |s| => LowerChar(s[i]))
  }

  /** The gate itself. */
  predicate EstadoPermitido(estado: string)
  {
    Lower(estado) in ESTADOS_VALIDOS
  }

  /** Two strings are equal up to the case of their ASCII letters. */
  ghost predicate SameUpToCase(s: string, t: string)
  {
    |s| == |t| && forall i :: 0 <= i < |s| ==> LowerChar(s[i]) == LowerChar(t[i])
  }

  lemma LowerCharIdempotent(ch: char)
    ensures LowerChar(LowerChar(ch)) == LowerChar(ch)
    ensures !IsUpper(LowerChar(ch))
  {
  }

  /** Lower-casing twice is lower-casing once. */
  lemma LowerIdempotent(s: string)
    ensures Lower(Lower(s)) == Lower(s)
  {
    forall i | 0 <= i < |s|
      ensures Lower(Lower(s))[i] == Lower(s)[i]
    {
      LowerCharIdempotent(s[i]);
    }
  }

  /** A lower-case string is its own lower-cased form. */
  lemma LowerOfLowerCase(s: string)
    requires forall i :: 0 <= i < |s| ==> !IsUpper(s[i])
    ensures Lower(s) == s
  {
  }

  /** The gate compares only lower-cased forms: it accepts exactly the strings equal,
      up to the case of their letters, to one of the three permitted states. */
  lemma EstadoPermitidoIff(estado: string)
    ensures EstadoPermitido(estado) <==>
              SameUpToCase(estado, PENDIENTE) || SameUpToCase(estado, CONFIRMADO) || SameUpToCase(estado, RECHAZADO)
  {
    LowerOfLowerCase(PENDIENTE);
    LowerOfLowerCase(CONFIRMADO);
    LowerOfLowerCase(RECHAZADO);
    forall w | w in ESTADOS_VALIDOS
      ensures Lower(estado) == w <==> SameUpToCase(estado, w)
    {
      if SameUpToCase(estado, w) {
        assert Lower(estado) == Lower(w);
      }
    }
  }

  /** The gate is insensitive to case: a string and its lower-cased form are judged alike. */
  lemma EstadoPermitidoIgnoresCase(estado: string)
    ensures EstadoPermitido(estado) <==> EstadoPermitido(Lower(estado))
  {
    LowerIdempotent(estado);
  }

  /** The three permitted states pass the gate in any case, and nothing else of their
      spelling does: "confirmed" and "" are refused. */
  lemma EstadoPermitidoExamples()
    ensures EstadoPermitido("pendiente") && EstadoPermitido("Confirmado") && EstadoPermitido("RECHAZADO")
    ensures !EstadoPermitido("confirmed") && !EstadoPermitido("")
  {
    LowerOfLowerCase(PENDIENTE);
    assert Lower("Confirmado") == CONFIRMADO;
    assert Lower("RECHAZADO") == RECHAZADO;
    assert Lower("confirmed") == "confirmed";
  }

  /** The gate does not normalise: an accepted `estado` need not be one of the three
      canonical spellings, and the handler stores it as sent. */
  lemma AcceptedButNotCanonical()
    ensures EstadoPermitido("CONFIRMADO") && "CONFIRMADO" !in ESTADOS_VALIDOS
  {
    assert Lower("CONFIRMADO") == CONFIRMADO;
    assert "CONFIRMADO"[0] != CONFIRMADO[0];
  }
}
