/** The value escaping around the remote store, which refuses empty values
    (escapeValueBeforePut and unescapeValueAfterGet in ssmops.go). A value that is
    empty or made only of spaces gets one extra space on the way out, and loses it
    on the way back. */
module ValueCodec {
  import opened GoStrings

  /** What escapeValueBeforePut computes. */
  function Escape(value: string): (r: string)
    ensures !AllSpaces(value) ==> r == value
    ensures AllSpaces(value) ==> r == value + " "
  {
    if AllSpaces(value) then value + " " else value
  }

  /** What unescapeValueAfterGet computes. */
  function Unescape(value: string): (r: string)
    ensures value == "" ==> r == ""
    ensures value != "" && !AllSpaces(value) ==> r == value
    ensures value != "" && AllSpaces(value) ==> r == value[..|value| - 1]
  {
    if value != "" && AllSpaces(value) then value[..|value| - 1] else value
  }

  /** escapeValueBeforePut: scans the runes and returns the value at the first one
      that is not a space; a value without one gets a space appended. */
  method EscapeValueBeforePut(value: string) returns (r: string)
    ensures r == Escape(value)
  {
    var i := 0;
    while i < |value|
      invariant 0 <= i <= |value|
      invariant forall j :: 0 <= j < i ==> value[j] == ' '
    {
      if value[i] != ' ' {
        return value;
      }
      i := i + 1;
    }
    return value + " ";
  }

  /** unescapeValueAfterGet: the empty value is returned as it is; otherwise the same
      scan, and a value of spaces only loses its last rune. */
  method UnescapeValueAfterGet(value: string) returns (r: string)
    ensures r == Unescape(value)
  {
    if |value| == 0 {
      return value;
    }
    var i := 0;
    while i < |value|
      invariant 0 <= i <= |value|
      invariant forall j :: 0 <= j < i ==> value[j] == ' '
    {
      if value[i] != ' ' {
        return value;
      }
      i := i + 1;
    }
    return value[..|value| - 1];
  }

  /** The escaped value is never empty, so the store always accepts it. */
  lemma EscapeNonEmpty(value: string)
    ensures Escape(value) != ""
  {
    if AllSpaces(value) {
      assert |value + " "| == |value| + 1;
    }
  }

  /** Unescaping undoes escaping, for every value. */
  lemma UnescapeEscape(value: string)
    ensures Unescape(Escape(value)) == value
  {
    if AllSpaces(value) {
      var e := value + " ";
      assert AllSpaces(e) by {
        assert forall j :: 0 <= j < |e| ==> e[j] == (if j < |value| then value[j] else ' ');
      }
      assert e[..|e| - 1] == value;
    }
  }

  /** Escaping undoes unescaping, for every value the store can hold (it holds no
      empty value). */
  lemma EscapeUnescape(value: string)
    requires value != ""
    ensures Escape(Unescape(value)) == value
  {
    if AllSpaces(value) {
      var u := value[..|value| - 1];
      assert AllSpaces(u);
      assert u + " " == value by {
        assert value[|value| - 1] == ' ';
        assert forall j :: 0 <= j < |value| ==> (u + " ")[j] == value[j];
      }
    }
  }

  /** Without the requirement the round trip fails: the empty value comes back as one space. */
  lemma EscapeUnescapeEmpty()
    ensures Escape(Unescape("")) == " "
  {
  }
}
