/** JSON request bodies with Gatling placeholders. The pieces are pasted in
    verbatim: nothing is escaped, so an expression containing `"` or `}`
    changes the shape of the JSON. */
module RequestBodyTemplates {
  import opened Expressions

  const AuthHead := "{\"username\":\""
  const AuthMiddle := "\",\"password\":\""
  const AuthTail := "\"}"

  /** Everything between the two placeholders' expressions. */
  const AuthSeparator := Close + AuthMiddle + Open

  /** Slicing a three-part concatenation gives back its parts. */
  lemma Infix(x: string, y: string, z: string)
    ensures (x + y + z)[..|x|] == x
    ensures (x + y + z)[|x|..|x| + |y|] == y
    ensures (x + y + z)[|x| + |y|..] == z
  {
    assert (x + y + z)[..|x|] == x;
  }

  /** `p a s b s c t` read with the middle `s` in either expression. */
  lemma Regroup(p: string, a: string, s: string, b: string, c: string, t: string)
    ensures p + (a + s + b) + s + c + t == p + a + s + (b + s + c) + t
  {
    assert p + (a + s + b) == p + a + s + b;
    assert p + a + s + (b + s + c) == p + a + s + b + s + c;
  }

  /** `auth`: register/login body; both fields are placeholders inside JSON
      strings. */
  function Auth(username: string, password: string): (r: string)
    ensures |r| == |username| + |password| + 35
    ensures r[0] == '{' && r[|r| - 1] == '}'
  {
    AuthHead + Placeholder(username) + AuthMiddle + Placeholder(password) + AuthTail
  }

  /** The body as its five pieces, fixed text around the two expressions. */
  lemma AuthPieces(username: string, password: string)
    ensures Auth(username, password)
      == (AuthHead + Open) + username + AuthSeparator + password + (Close + AuthTail)
  {
  }

  /** Both expressions can be read back from the body at fixed offsets. */
  lemma AuthFields(username: string, password: string)
    ensures var r := Auth(username, password);
      && r[..15] == AuthHead + Open
      && r[15..15 + |username|] == username
      && r[15 + |username|..32 + |username|] == AuthSeparator
      && r[32 + |username|..|r| - 3] == password
      && r[|r| - 3..] == Close + AuthTail
  {
    AuthPieces(username, password);
  }

  /** `AUTH_BODY_USERNAME_PASSWORD`. */
  const AuthBodyUsernamePassword := Auth("username", "password")

  const FundHead := "{\"amount\":"
  const FundTail := "}"

  /** `fundAmount`: the amount goes in bare, as a JSON number literal. */
  function FundAmount(amount: string): (r: string)
    ensures |r| == |amount| + 11
    ensures r[0] == '{' && r[|r| - 1] == '}'
    ensures r[..10] == FundHead
    ensures r[10..|r| - 1] == amount
  {
    FundHead + amount + FundTail
  }

  const PaymentHead := "{\"fromAccountId\":\""
  const PaymentMiddle := "\",\"toAccountId\":\""
  const PaymentAmount := "\",\"amount\":\""
  const PaymentTail := "\"}"

  /** Everything between the two account expressions. */
  const PaymentSeparator := Close + PaymentMiddle + Open

  /** `payment`: both account ids are placeholders inside JSON strings; the
      amount is a quoted string, unlike in `fundAmount`. */
  function Payment(from: string, to: string, amount: string): (r: string)
    ensures |r| == |from| + |to| + |amount| + 55
    ensures r[0] == '{' && r[|r| - 1] == '}'
  {
    PaymentHead + Placeholder(from) + PaymentMiddle + Placeholder(to) + PaymentAmount + amount + PaymentTail
  }

  /** The body as its seven pieces, fixed text around the three arguments. */
  lemma PaymentPieces(from: string, to: string, amount: string)
    ensures Payment(from, to, amount)
      == (PaymentHead + Open) + from + PaymentSeparator + to + (Close + PaymentAmount) + amount + PaymentTail
  {
  }

  /** All three arguments can be read back from the body at fixed offsets. */
  lemma PaymentFields(from: string, to: string, amount: string)
    ensures var r := Payment(from, to, amount);
      && r[..20] == PaymentHead + Open
      && r[20..20 + |from|] == from
      && r[20 + |from|..40 + |from|] == PaymentSeparator
      && r[40 + |from|..40 + |from| + |to|] == to
      && r[40 + |from| + |to|..53 + |from| + |to|] == Close + PaymentAmount
      && r[53 + |from| + |to|..|r| - 2] == amount
      && r[|r| - 2..] == PaymentTail
  {
    PaymentPieces(from, to, amount);
    var r := Payment(from, to, amount);
    var P, S, M, T := PaymentHead + Open, PaymentSeparator, Close + PaymentAmount, PaymentTail;
    var rest2 := M + amount + T;
    var rest1 := S + to + rest2;
    assert |P| == 20 && |S| == 20 && |M| == 13 && |T| == 2;
    assert r == P + from + rest1;
    Infix(P, from, rest1);
    Infix(S, to, rest2);
    Infix(M, amount, T);
    assert r[20 + |from|..] == rest1;
    assert r[20 + |from|..40 + |from|] == rest1[..20];
    assert r[40 + |from|..] == rest1[20..];
    assert r[40 + |from|..40 + |from| + |to|] == rest1[20..20 + |to|];
    assert r[40 + |from| + |to|..] == rest2;
  }

  /** The shared constant spells out the two standard session attributes. */
  lemma AuthBodyUsernamePasswordText()
    ensures AuthBodyUsernamePassword == "{\"username\":\"#{username}\",\"password\":\"#{password}\"}"
  {
    assert Placeholder("username") == "#{username}";
    assert Placeholder("password") == "#{password}";
    assert AuthHead + "#{username}" == "{\"username\":\"#{username}";
    assert AuthMiddle + "#{password}" + AuthTail == "\",\"password\":\"#{password}\"}";
  }

  /** Given the username's length, the body determines both expressions. */
  lemma AuthInjective(u1: string, p1: string, u2: string, p2: string)
    requires |u1| == |u2|
    requires Auth(u1, p1) == Auth(u2, p2)
    ensures u1 == u2 && p1 == p2
  {
    AuthFields(u1, p1);
    AuthFields(u2, p2);
  }

  /** Without that length the body is ambiguous: moving the separator text
      between the two expressions produces the same body. */
  lemma AuthAmbiguous(a: string, b: string, c: string)
    ensures Auth(a + AuthSeparator + b, c) == Auth(a, b + AuthSeparator + c)
  {
    AuthPieces(a + AuthSeparator + b, c);
    AuthPieces(a, b + AuthSeparator + c);
    Regroup(AuthHead + Open, a, AuthSeparator, b, c, Close + AuthTail);
  }

  /** For instance, username `a}","password":"#{b` with password `c` gives
      the same body as username `a` with password `b}","password":"#{c`. */
  lemma AuthAmbiguousExample()
    ensures Auth("a}\",\"password\":\"#{b", "c") == Auth("a", "b}\",\"password\":\"#{c")
  {
    assert "a}\",\"password\":\"#{b" == "a" + AuthSeparator + "b";
    assert "b}\",\"password\":\"#{c" == "b" + AuthSeparator + "c";
    AuthAmbiguous("a", "b", "c");
  }

  /** Given the lengths of the account expressions, a payment body
      determines all three arguments. */
  lemma PaymentInjective(f1: string, t1: string, a1: string, f2: string, t2: string, a2: string)
    requires |f1| == |f2| && |t1| == |t2|
    requires Payment(f1, t1, a1) == Payment(f2, t2, a2)
    ensures f1 == f2 && t1 == t2 && a1 == a2
  {
    PaymentFields(f1, t1, a1);
    PaymentFields(f2, t2, a2);
  }

  /** A fund body determines its amount. */
  lemma FundAmountInjective(a1: string, a2: string)
    ensures FundAmount(a1) == FundAmount(a2) ==> a1 == a2
  {
    var r1 := FundAmount(a1);
    assert r1[10..|r1| - 1] == a1;
  }
}
