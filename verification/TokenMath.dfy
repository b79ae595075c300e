/** Token estimates: characters divided by a ratio, rounded up. */
module TokenMath {

  /** A token for every full `charsPerToken` characters and one for what is left over. */
  function Tokens(chars: nat, charsPerToken: int): nat
    requires charsPerToken > 0
  {
    if chars == 0 then 0
    else if chars <= charsPerToken then 1
    else 1 + Tokens(chars - charsPerToken, charsPerToken)
  }

  /** Counting whole ratios is rounding division. */
  lemma {:induction false} TokensRoundUp(chars: nat, charsPerToken: int)
    requires charsPerToken > 0
    ensures Tokens(chars, charsPerToken) == (chars + charsPerToken - 1) / charsPerToken
  {
    if chars > charsPerToken {
      TokensRoundUp(chars - charsPerToken, charsPerToken);
      var q := (chars - 1) / charsPerToken;
      assert q * charsPerToken <= chars - 1 < q * charsPerToken + charsPerToken;
      assert (q + 1) * charsPerToken == q * charsPerToken + charsPerToken;
      QuotientIs(chars + charsPerToken - 1, charsPerToken, q + 1);
    } else if chars > 0 {
      QuotientIs(chars + charsPerToken - 1, charsPerToken, 1);
    } else {
      QuotientIs(charsPerToken - 1, charsPerToken, 0);
    }
  }

  lemma QuotientIs(x: nat, c: int, q: nat)
    requires c > 0 && q * c <= x < q * c + c
    ensures x / c == q
  {
    var d := x / c;
    assert d * c <= x < d * c + c;
    if d < q {
      NextMultiple(d, q, c);
    } else if q < d {
      NextMultiple(q, d, c);
    }
  }

  lemma NextMultiple(a: int, b: int, c: int)
    requires a < b && c > 0
    ensures a * c + c <= b * c
  {
    assert (a + 1) * c <= b * c;
  }

  lemma {:induction false} TokensFit(chars: nat, charsPerToken: int, t: nat)
    requires charsPerToken > 0 && chars <= t * charsPerToken
    ensures Tokens(chars, charsPerToken) <= t
    decreases t
  {
    if chars > charsPerToken {
      assert t * charsPerToken == (t - 1) * charsPerToken + charsPerToken;
      TokensFit(chars - charsPerToken, charsPerToken, t - 1);
    }
  }

  lemma {:induction false} TokensGrow(a: nat, b: nat, charsPerToken: int)
    requires charsPerToken > 0 && a <= b
    ensures Tokens(a, charsPerToken) <= Tokens(b, charsPerToken)
  {
    if a > charsPerToken {
      TokensGrow(a - charsPerToken, b - charsPerToken, charsPerToken);
    }
  }

  lemma {:induction false} TokensSubadditive(a: nat, b: nat, charsPerToken: int)
    requires charsPerToken > 0
    ensures Tokens(a + b, charsPerToken) <= Tokens(a, charsPerToken) + Tokens(b, charsPerToken)
  {
    if a > charsPerToken {
      TokensSubadditive(a - charsPerToken, b, charsPerToken);
    } else if a > 0 {
      TokensGrow(a + b, charsPerToken + b, charsPerToken);
    }
  }

  /** Rounding up with integer division. */
  function CeilDiv(chars: nat, charsPerToken: int): (t: nat)
    requires charsPerToken > 0
    ensures t == Tokens(chars, charsPerToken)
  {
    TokensRoundUp(chars, charsPerToken);
    (chars + charsPerToken - 1) / charsPerToken
  }
}
