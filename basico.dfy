/** Shared vocabulary of the domain: identifiers, roles, and the decimal
    rendering a JavaScript template literal applies to a non-negative count. */
module Basico {

  /** Identifiers are plain strings. */
  type ID = string

  /** The three user roles. */
  datatype Papel = Admin | Editor | Leitor

  /** The text a role is serialized as. */
  function PapelTexto(p: Papel): string
  {
    match p
    case Admin => "Admin"
    case Editor => "Editor"
    case Leitor => "Leitor"
  }

  predicate EhDigito(c: char)
  {
    '0' <= c <= '9'
  }

  predicate SoDigitos(s: string)
  {
    forall i :: 0 <= i < |s| ==> EhDigito(s[i])
  }

  function Digito(d: nat): (c: char)
    requires d < 10
    ensures EhDigito(c) && (c as int) - ('0' as int) == d
  {
    ('0' as int + d) as char
  }

  /** `${n}` for a non-negative integer `n`: its decimal digits, most
      significant first, without leading zeros. */
  function Decimal(n: nat): (s: string)
    ensures |s| > 0 && SoDigitos(s)
    ensures |s| > 1 ==> s[0] != '0'
    decreases n
  {
    if n < 10 then [Digito(n)] else Decimal(n / 10) + [Digito(n % 10)]
  }

  /** The number a string of decimal digits denotes. */
  function ValorDecimal(s: string): nat
    requires SoDigitos(s)
  {
    if s == [] then 0
    else ValorDecimal(s[..|s| - 1]) * 10 + ((s[|s| - 1] as int) - ('0' as int))
  }

  /** Reading back the rendered digits yields the number: the rendering
      loses nothing. */
  lemma {:induction false} DecimalIdaEVolta(n: nat)
    ensures ValorDecimal(Decimal(n)) == n
    decreases n
  {
    if n >= 10 {
      DecimalIdaEVolta(n / 10);
      var s := Decimal(n);
      assert s[..|s| - 1] == Decimal(n / 10);
    }
  }
}
