/**
 The password-reset link: the text the server builds around the reset
 token, and the expression the forgot-password page uses to take the
 token back out of it.
 */
module Links {
  import opened Wrappers
  import opened Text

  const Marker := "token="
  /** The fixed text between the front-end URL and the token. */
  const Route := "/reset-password?token="

  /** The template `${FRONTEND_URL}/reset-password?token=${resetToken}&email=${email}`. */
  function ResetLinkText(frontendUrl: string, token: string, email: string): string {
    frontendUrl + Route + token + "&email=" + email
  }

  /**
   `resetLink.split("token=")[1].split("&")[0]`: None when the link has no
   "token=", where `[1]` is undefined and the call throws. What comes back
   never contains '&' or "token=".
   */
  function ExtractResetToken(link: string): (r: Option<string>)
    ensures r.Some? <==> Includes(link, Marker)
    ensures r.Some? ==> '&' !in r.value && !Includes(r.value, Marker)
  {
    var parts := Split(link, Marker);
    if |parts| < 2 then None
    else
      var t := Split(parts[1], "&")[0];
      assert '&' !in t by {
        if '&' in t {
          var i :| 0 <= i < |t| && t[i] == '&';
          CharOccursAt(t, '&', i);
        }
      }
      assert !Includes(t, Marker) by {
        SplitHead(parts[1], "&");
        if Includes(t, Marker) {
          var j := IndexOf(t, Marker).value;
          if IndexOf(parts[1], "&").Some? {
            OccursInPrefix(parts[1], Marker, IndexOf(parts[1], "&").value, j);
          }
          NotIncludes(parts[1], Marker, j);
        }
      }
      Some(t)
  }

  /** The marker's last character is '=' and it has no '&'. */
  lemma MarkerShape(s: string, j: int)
    requires OccursAt(s, Marker, j)
    ensures s[j + 5] == '=' && forall k :: j <= k < j + 6 ==> s[k] != '&'
  {
    assert s[j..j + 6] == Marker;
    assert forall k :: j <= k < j + 6 ==> s[k] == s[j..j + 6][k - j];
  }

  /** With no "token=" in the URL, the first one in the link is the route's. */
  lemma FirstMarkerInLink(url: string, rest: string)
    requires !Includes(url, Marker)
    ensures IndexOf(url + Route + rest, Marker) == Some(|url| + 16)
  {
    var link := url + Route + rest;
    var p0 := |url| + 16;
    assert link[p0..p0 + 6] == Route[16..22] == Marker;
    forall j | 0 <= j < p0 ensures !OccursAt(link, Marker, j) {
      if OccursAt(link, Marker, j) {
        MarkerShape(link, j);
        if j + 6 <= |url| {
          assert link[j..j + 6] == url[j..j + 6];
          NotIncludes(url, Marker, j);
          assert OccursAt(url, Marker, j);
        }
      }
    }
    FirstOccurrence(link, Marker, p0);
  }

  /** No "token=" starts inside the token or at the '&' right after it. */
  lemma MarkerAfterToken(token: string, email: string, q: int)
    requires !Includes(token, Marker) && '&' !in token
    requires OccursAt(token + "&email=" + email, Marker, q)
    ensures q > |token|
  {
    var rest := token + "&email=" + email;
    if q <= |token| {
      MarkerShape(rest, q);
      if q + 6 <= |token| {
        assert rest[q..q + 6] == token[q..q + 6];
        NotIncludes(token, Marker, q);
      }
    }
  }

  /** The piece after the marker runs at least to the '&' that ends the token. */
  lemma PieceCoversToken(token: string, email: string)
    requires !Includes(token, Marker) && '&' !in token
    ensures var piece := Split(token + "&email=" + email, Marker)[0];
      |piece| > |token| && piece[..|token| + 1] == token + "&"
  {
    var rest := token + "&email=" + email;
    var piece := Split(rest, Marker)[0];
    SplitHead(rest, Marker);
    TokenThenAmpersand(token, email);
    match IndexOf(rest, Marker)
    case None =>
    case Some(q) =>
      MarkerAfterToken(token, email, q);
      assert piece == rest[..q];
      PrefixOfPrefix(rest, q, |token| + 1);
  }

  lemma TokenThenAmpersand(token: string, email: string)
    ensures |token + "&email=" + email| > |token|
    ensures (token + "&email=" + email)[..|token| + 1] == token + "&"
  {
    var rest := token + "&email=" + email;
    assert forall k :: 0 <= k < |token| ==> rest[k] == token[k];
    assert rest[|token|] == '&';
  }

  lemma PrefixOfPrefix(s: string, n: nat, m: nat)
    requires m <= n <= |s|
    ensures s[..n][..m] == s[..m]
  {
  }

  /** Splitting on '&' and taking the first piece stops right after the token. */
  lemma TokenBeforeAmpersand(piece: string, token: string)
    requires '&' !in token
    requires |piece| > |token| && piece[..|token| + 1] == token + "&"
    ensures Split(piece, "&")[0] == token
  {
    var n := |token|;
    var head := piece[..n + 1];
    assert head[n] == '&';
    CharOccursAt(piece, '&', n);
    forall j | 0 <= j < n ensures !OccursAt(piece, "&", j) {
      CharOccursAt(piece, '&', j);
      assert head[j] == token[j];
    }
    FirstOccurrence(piece, "&", n);
    SplitHead(piece, "&");
    PrefixOfPrefix(piece, n + 1, n);
    assert (token + "&")[..n] == token;
  }

  /**
   The page recovers exactly the token the server put in the link, as long
   as the front-end URL does not contain "token=" and the token contains
   neither '&' nor "token=" (a compact JSON Web Token contains neither).
   */
  lemma ResetLinkRoundTrip(url: string, token: string, email: string)
    requires !Includes(url, Marker)
    requires !Includes(token, Marker) && '&' !in token
    ensures ExtractResetToken(ResetLinkText(url, token, email)) == Some(token)
  {
    var rest := token + "&email=" + email;
    var link := url + Route + rest;
    assert ResetLinkText(url, token, email) == link;
    FirstMarkerInLink(url, rest);
    var p0 := |url| + 16;
    assert link[p0 + 6..] == rest;
    assert Split(link, Marker) == [link[..p0]] + Split(rest, Marker);
    PieceCoversToken(token, email);
    TokenBeforeAmpersand(Split(rest, Marker)[0], token);
  }
}
