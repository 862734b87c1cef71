/**
 * The order-API credential: the key file's text is cut into the maximal
 * runs of the pattern [^ :A-Z\r\n]+, and exactly two runs (public key,
 * private key) are joined with ':'. Base64 encoding of the joined string
 * happens outside this model.
 */
module Credentials {
  import opened Wrappers
  import opened Text
  import opened Seqs

  /** The characters the pattern's negated class excludes: space, ':', 'A'..'Z', CR, LF. */
  predicate IsSeparator(c: char) {
    c == ' ' || c == ':' || ('A' <= c <= 'Z') || c == '\r' || c == '\n'
  }

  /** A string the pattern matches as a whole: non-empty, no separator. */
  predicate IsToken(t: string) {
    |t| > 0 && forall i :: 0 <= i < |t| ==> !IsSeparator(t[i])
  }

  /** Length of the longest separator-free prefix of s. */
  function RunLength(s: string): (n: nat)
    ensures n <= |s|
    ensures forall i :: 0 <= i < n ==> !IsSeparator(s[i])
    ensures n < |s| ==> IsSeparator(s[n])
  {
    if s == [] || IsSeparator(s[0]) then 0 else 1 + RunLength(s[1..])
  }

  /** The matches of the pattern in s, left to right: its maximal separator-free runs. */
  function Tokens(s: string): (r: seq<string>)
    ensures forall k :: 0 <= k < |r| ==> IsToken(r[k])
    decreases |s|
  {
    if s == [] then []
    else if IsSeparator(s[0]) then Tokens(s[1..])
    else
      var n := RunLength(s);
      [s[..n]] + Tokens(s[n..])
  }

  /** Any n meeting RunLength's contract is RunLength. */
  lemma RunLengthUnique(s: string, n: nat)
    requires n <= |s|
    requires forall i :: 0 <= i < n ==> !IsSeparator(s[i])
    requires n < |s| ==> IsSeparator(s[n])
    ensures RunLength(s) == n
  {
    var m := RunLength(s);
    if m < n {
      assert false;
    } else if n < m {
      assert false;
    }
  }

  /** A separator-free, non-empty string is a single token. */
  lemma TokensOfRun(s: string)
    requires IsToken(s)
    ensures Tokens(s) == [s]
  {
    RunLengthUnique(s, |s|);
    assert s[..|s|] == s;
  }

  /** A string made only of separators holds no token. */
  lemma {:induction false} TokensOfSeparators(s: string)
    requires forall i :: 0 <= i < |s| ==> IsSeparator(s[i])
    ensures Tokens(s) == []
    decreases |s|
  {
    if s != [] {
      TokensOfSeparators(s[1..]);
    }
  }

  /**
   * A separator cuts the text in two independent halves: no token spans it.
   * With TokensOfRun this pins Tokens down to the maximal runs.
   */
  lemma {:induction false} TokensSplit(a: string, c: char, b: string)
    requires IsSeparator(c)
    ensures Tokens(a + [c] + b) == Tokens(a) + Tokens(b)
    decreases |a|
  {
    var s := a + [c] + b;
    if a == [] {
      assert s[0] == c && s[1..] == b;
    } else if IsSeparator(a[0]) {
      assert s[0] == a[0] && s[1..] == a[1..] + [c] + b;
      TokensSplit(a[1..], c, b);
    } else {
      var m := RunLength(a);
      assert forall i :: 0 <= i < m ==> s[i] == a[i];
      assert m < |a| ==> s[m] == a[m];
      assert m == |a| ==> s[m] == c;
      RunLengthUnique(s, m);
      assert s[..m] == a[..m];
      assert s[m..] == a[m..] + [c] + b;
      TokensSplit(a[m..], c, b);
      ConcatAssoc([a[..m]], Tokens(a[m..]), Tokens(b));
    }
  }

  /** Leading separators do not change the tokens. */
  lemma {:induction false} TokensAfterSeparators(p: string, x: string)
    requires forall i :: 0 <= i < |p| ==> IsSeparator(p[i])
    ensures Tokens(p + x) == Tokens(x)
    decreases |p|
  {
    if p != [] {
      assert (p + x)[0] == p[0] && (p + x)[1..] == p[1..] + x;
      TokensAfterSeparators(p[1..], x);
    } else {
      assert p + x == x;
    }
  }

  /** The key file text read when the file could not be read: empty. */
  function KeyFileText(keyFile: Option<string>): string
  {
    match keyFile
    case None => ""
    case Some(text) => text
  }

  /** The key file laid out as its template asks, with the two keys filled in. */
  function KeyFile(publicKey: string, privateKey: string): string
  {
    "PUBLIC KEY: " + publicKey + "\nPRIVATE KEY: " + privateKey
  }

  /** The template written when the key file is missing: both keys left blank. */
  const Template: string := "PUBLIC KEY: \nPRIVATE KEY: "

  lemma LabelsAreSeparators()
    ensures forall i :: 0 <= i < |"PUBLIC KEY: "| ==> IsSeparator("PUBLIC KEY: "[i])
    ensures forall i :: 0 <= i < |"PRIVATE KEY: "| ==> IsSeparator("PRIVATE KEY: "[i])
  {
  }

  /** The labels and line break of the layout add no token; the keys' own tokens remain. */
  lemma KeyFileTokens(publicKey: string, privateKey: string)
    ensures Tokens(KeyFile(publicKey, privateKey)) == Tokens(publicKey) + Tokens(privateKey)
  {
    var tail := "PRIVATE KEY: " + privateKey;
    assert KeyFile(publicKey, privateKey) == "PUBLIC KEY: " + (publicKey + ['\n'] + tail);
    LabelsAreSeparators();
    TokensAfterSeparators("PUBLIC KEY: ", publicKey + ['\n'] + tail);
    TokensSplit(publicKey, '\n', tail);
    TokensAfterSeparators("PRIVATE KEY: ", privateKey);
  }

  /**
   * The credential: the two tokens joined by ':', or None (a fatal error
   * in the program) when the text does not hold exactly two tokens.
   */
  function Credential(keyFile: Option<string>): (r: Option<string>)
    ensures r.Some? <==> |Tokens(KeyFileText(keyFile))| == 2
    ensures r.Some? ==>
      var keys := Tokens(KeyFileText(keyFile));
      |r.value| == |keys[0]| + 1 + |keys[1]| &&
      FieldBefore(r.value, ':') == keys[0] && r.value[|keys[0]| + 1..] == keys[1]
  {
    var keys := Tokens(KeyFileText(keyFile));
    if |keys| != 2 then None
    else
      assert ':' !in keys[0] by {
        assert IsToken(keys[0]);
      }
      FieldBeforeJoin(keys[0], ':', keys[1]);
      Some(keys[0] + ":" + keys[1])
  }

  /** Neither a missing key file nor the untouched template yields a credential. */
  lemma TemplateRejected()
    ensures Template == KeyFile("", "")
    ensures Tokens(Template) == []
    ensures Credential(None) == None
    ensures Credential(Some(Template)) == None
  {
    KeyFileTokens("", "");
  }

  /** A template filled with two separator-free keys yields them joined by ':'. */
  lemma FilledKeyFile(publicKey: string, privateKey: string)
    requires IsToken(publicKey) && IsToken(privateKey)
    ensures Credential(Some(KeyFile(publicKey, privateKey))) == Some(publicKey + ":" + privateKey)
  {
    KeyFileTokens(publicKey, privateKey);
    TokensOfRun(publicKey);
    TokensOfRun(privateKey);
  }

  /** An upper-case letter inside a key splits it in two: three tokens, no credential. */
  lemma UpperCaseSplitsKey(front: string, upper: char, back: string, privateKey: string)
    requires IsToken(front) && IsToken(back) && IsToken(privateKey)
    requires 'A' <= upper <= 'Z'
    ensures Tokens(front + [upper] + back) == [front, back]
    ensures Credential(Some(KeyFile(front + [upper] + back, privateKey))) == None
  {
    TokensSplit(front, upper, back);
    TokensOfRun(front);
    TokensOfRun(back);
    KeyFileTokens(front + [upper] + back, privateKey);
    TokensOfRun(privateKey);
  }
}
