/**
 * The CSRF cookie lookup shared by the invoice, template and client pages:
 * the cookie string split on ';', each entry trimmed, and the value of the
 * first entry that starts with `name=`, URI-decoded; null (None) when no
 * entry does. The URI decoding is the `decode` parameter.
 */
module Cookies {
  import opened Wrappers
  import opened Strings

  /** The entry, trimmed, starts with `name=`. */
  predicate Names(entry: string, name: string) {
    StartsWith(Strip(entry), name + "=")
  }

  /** The decoded value of an entry that names the cookie. */
  function ValueOf(entry: string, name: string, decode: string -> string): string
    requires Names(entry, name)
  {
    decode(Strip(entry)[|name| + 1..])
  }

  /** The first entry naming the cookie, searched from the front. */
  function FirstMatch(entries: seq<string>, name: string, decode: string -> string): Option<string> {
    if entries == [] then None
    else if Names(entries[0], name) then Some(ValueOf(entries[0], name, decode))
    else FirstMatch(entries[1..], name, decode)
  }

  /** Nothing is found exactly when no entry names the cookie. */
  lemma {:induction false} FirstMatchNoneIff(entries: seq<string>, name: string, decode: string -> string)
    ensures FirstMatch(entries, name, decode).None? <==> forall i :: 0 <= i < |entries| ==> !Names(entries[i], name)
  {
    if entries != [] {
      FirstMatchNoneIff(entries[1..], name, decode);
      assert forall i :: 1 <= i < |entries| ==> entries[i] == entries[1..][i - 1];
    }
  }

  /** The value found is that of the first entry naming the cookie, whatever later entries say. */
  lemma {:induction false} FirstMatchIsFirst(entries: seq<string>, name: string, decode: string -> string, k: int)
    requires 0 <= k < |entries| && Names(entries[k], name)
    requires forall i :: 0 <= i < k ==> !Names(entries[i], name)
    ensures FirstMatch(entries, name, decode) == Some(ValueOf(entries[k], name, decode))
  {
    if k > 0 {
      assert !Names(entries[0], name);
      assert forall i :: 0 <= i < k - 1 ==> entries[1..][i] == entries[i + 1];
      FirstMatchIsFirst(entries[1..], name, decode, k - 1);
    }
  }

  /** One step of the search: the entry at i decides, or the search goes on after it. */
  lemma FirstMatchStep(entries: seq<string>, i: int, name: string, decode: string -> string)
    requires 0 <= i < |entries|
    ensures FirstMatch(entries[i..], name, decode)
      == if Names(entries[i], name) then Some(ValueOf(entries[i], name, decode)) else FirstMatch(entries[i + 1..], name, decode)
  {
    assert entries[i..][1..] == entries[i + 1..];
  }

  /** `getCookie`: nothing for an empty cookie string, else the search of its ';'-separated entries. */
  method GetCookie(cookie: string, name: string, decode: string -> string) returns (value: Option<string>)
    ensures value == (if cookie == "" then None else FirstMatch(Split(cookie, ';'), name, decode))
  {
    value := None;
    if cookie != "" {
      value := FindCookie(Split(cookie, ';'), name, decode);
    }
  }

  /** The loop of `getCookie`, stopping at the first entry that names the cookie. */
  method FindCookie(cookies: seq<string>, name: string, decode: string -> string) returns (value: Option<string>)
    ensures value == FirstMatch(cookies, name, decode)
  {
    var i := 0;
    while i < |cookies|
      invariant 0 <= i <= |cookies|
      invariant FirstMatch(cookies, name, decode) == FirstMatch(cookies[i..], name, decode)
    {
      FirstMatchStep(cookies, i, name, decode);
      if Names(cookies[i], name) {
        return Some(ValueOf(cookies[i], name, decode));
      }
      i := i + 1;
    }
    assert cookies[i..] == [];
    return None;
  }

  /** An empty cookie string finds nothing, exactly as its single empty entry would. */
  lemma EmptyCookieFindsNothing(name: string, decode: string -> string)
    ensures FirstMatch(Split("", ';'), name, decode).None?
  {
    assert Split("", ';') == [""];
    assert !Names("", name);
  }
}
