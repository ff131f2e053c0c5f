/**
 * How handlers turn an exception into an HTTP error: by the first phrase of a
 * table, in order, that occurs inside the exception text, or by an exact
 * lookup of the whole text with a default.
 */
module ErrorMapping {
  import opened Common
  import opened Strings

  /** The error of the first phrase, in table order, that occurs in `text`. */
  function FirstMatch(table: seq<(string, HttpError)>, text: string): Option<HttpError>
  {
    if table == [] then None
    else if Contains(text, table[0].0) then Some(table[0].1)
    else FirstMatch(table[1..], text)
  }

  /** The handler's `for error_msg, (status_code, detail) in error_mappings.items()` loop. */
  method MapError(table: seq<(string, HttpError)>, text: string) returns (m: Option<HttpError>)
    ensures m == FirstMatch(table, text)
  {
    for i := 0 to |table|
      invariant FirstMatch(table, text) == FirstMatch(table[i..], text)
    {
      assert table[i..][1..] == table[i + 1..];
      if Contains(text, table[i].0) {
        return Some(table[i].1);
      }
    }
    return None;
  }

  /** A match is the first phrase that occurs: it occurs, and none before it does. */
  lemma {:induction false} FirstMatchIndex(table: seq<(string, HttpError)>, text: string) returns (i: nat)
    requires FirstMatch(table, text).Some?
    ensures i < |table| && Contains(text, table[i].0) && FirstMatch(table, text) == Some(table[i].1)
    ensures forall j :: 0 <= j < i ==> !Contains(text, table[j].0)
  {
    if Contains(text, table[0].0) {
      i := 0;
    } else {
      var k := FirstMatchIndex(table[1..], text);
      i := k + 1;
    }
  }

  /** No match exactly when no phrase of the table occurs. */
  lemma {:induction false} FirstMatchNone(table: seq<(string, HttpError)>, text: string)
    ensures FirstMatch(table, text).None? <==> forall j :: 0 <= j < |table| ==> !Contains(text, table[j].0)
  {
    if table != [] {
      FirstMatchNone(table[1..], text);
      assert forall j :: 1 <= j < |table| ==> table[j] == table[1..][j - 1];
    }
  }

  /** `error_mappings.get(str(e), default)`: the entry whose phrase is the whole text, else the default. */
  function ExactMatch(table: seq<(string, HttpError)>, text: string, default: HttpError): (r: HttpError)
    ensures (forall j :: 0 <= j < |table| ==> table[j].0 != text) ==> r == default
    ensures forall j :: 0 <= j < |table| && table[j].0 == text && (forall k :: 0 <= k < j ==> table[k].0 != text) ==>
      r == table[j].1
  {
    if table == [] then default
    else if table[0].0 == text then table[0].1
    else
      assert forall j :: 1 <= j < |table| ==> table[j] == table[1..][j - 1];
      ExactMatch(table[1..], text, default)
  }
}
