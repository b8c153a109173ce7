/** Absolute URIs: `rtrim($base, '/') . '/' . $relative`. */
module Uris {

  /** PHP's rtrim with a single character to strip: remove every trailing `c`. */
  function RTrim(s: string, c: char): (r: string)
    ensures |r| <= |s| && r == s[..|r|]
    ensures r == [] || r[|r| - 1] != c
    ensures forall i :: |r| <= i < |s| ==> s[i] == c
  {
    if s != [] && s[|s| - 1] == c then RTrim(s[..|s| - 1], c) else s
  }

  /** The service URI without its trailing slashes, one slash, and the relative URI. */
  function AbsoluteUri(serviceUri: string, relativeUri: string): (r: string)
    ensures var b := |r| - |relativeUri| - 1;
      0 <= b <= |serviceUri| &&
      r[b + 1..] == relativeUri && r[b] == '/' && r[..b] == serviceUri[..b] &&
      (b == 0 || serviceUri[b - 1] != '/') &&
      (forall i :: b <= i < |serviceUri| ==> serviceUri[i] == '/')
  {
    RTrim(serviceUri, '/') + "/" + relativeUri
  }

  function Slashes(k: nat): (r: string)
    ensures |r| == k && forall i :: 0 <= i < k ==> r[i] == '/'
  {
    if k == 0 then "" else Slashes(k - 1) + "/"
  }

  /** Trailing slashes on the service URI do not matter: base and relative part are always
      joined by exactly the one slash the serialiser writes. */
  lemma {:induction false} AbsoluteUriIgnoresTrailingSlashes(serviceUri: string, k: nat, relativeUri: string)
    ensures AbsoluteUri(serviceUri + Slashes(k), relativeUri) == AbsoluteUri(serviceUri, relativeUri)
  {
    if k > 0 {
      var s := serviceUri + Slashes(k);
      assert s[..|s| - 1] == serviceUri + Slashes(k - 1);
      AbsoluteUriIgnoresTrailingSlashes(serviceUri, k - 1, relativeUri);
    } else {
      assert serviceUri + Slashes(0) == serviceUri;
    }
  }

  /** When the service URI does not end in a slash, the absolute URI is exactly
      base, slash, relative part, and the relative part can be read back off its end. */
  lemma AbsoluteUriSplits(serviceUri: string, relativeUri: string)
    requires serviceUri == [] || serviceUri[|serviceUri| - 1] != '/'
    ensures AbsoluteUri(serviceUri, relativeUri) == serviceUri + "/" + relativeUri
    ensures AbsoluteUri(serviceUri, relativeUri)[|serviceUri| + 1..] == relativeUri
  {
  }
}
