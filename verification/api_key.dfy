/**
 * main_combined.py start-up: the Google Maps key is read from the file
 * API_KEY, or from ../API_KEY when the first is missing. The stripped
 * content is either the bare key or a `API_KEY=<key>` line.
 */
module ApiKey {
  import opened Wrappers
  import opened PyStr

  const Marker: string := "API_KEY="

  /** The marker is the name followed by the only '=' in it. */
  lemma MarkerShape()
    ensures Marker == "API_KEY" + ['='] && '=' !in "API_KEY"
  {
    var name := "API_KEY";
    assert forall i :: 0 <= i < |name| ==> name[i] != '=';
  }

  /** A text holding the marker holds an '='. */
  lemma MarkerHasEquals(t: string)
    requires Contains(t, Marker)
    ensures '=' in t
  {
    var i :| 0 <= i <= |t| - |Marker| && OccursAt(t, Marker, i);
    assert t[i..i + |Marker|][7] == '=';
    assert t[i + 7] == '=';
  }

  /** The key held by one stripped line: the second '='-piece when it holds the marker, else the line. */
  function ParseLine(t: string): (key: string)
    ensures !Contains(t, Marker) ==> key == t
    ensures Contains(t, Marker) ==> '=' !in key
  {
    if Contains(t, Marker) then
      MarkerHasEquals(t);
      SplitPiecesFree(t, '=');
      Split(t, '=')[1]
    else t
  }

  /** The key held by the content of one key file. */
  function ParseApiKey(content: string): string {
    ParseLine(Strip(content))
  }

  /**
   * With the marker present the key is the text between the first and the
   * second '=' of the line, or between the first '=' and the end.
   */
  lemma {:induction false} KeyBetweenEquals(t: string)
    requires Contains(t, Marker)
    ensures var key := ParseLine(t);
      exists p :: 0 <= p && p + 1 + |key| <= |t|
        && '=' !in t[..p] && t[p] == '='
        && t[p + 1..p + 1 + |key|] == key && '=' !in key
        && (p + 1 + |key| == |t| || t[p + 1 + |key|] == '=')
  {
    MarkerHasEquals(t);
    SecondPiece(t, '=');
    var p := |Split(t, '=')[0]|;
    assert t[..p] == Split(t, '=')[0];
  }

  /** A key line `API_KEY=<key>` parses to the key itself when the key has no '='. */
  lemma KeyLine(key: string)
    requires '=' !in key
    ensures ParseLine(Marker + key) == key
  {
    var t := Marker + key;
    assert Contains(t, Marker) by {
      assert t[0..|Marker|] == Marker;
      assert OccursAt(t, Marker, 0);
    }
    assert Split(t, '=') == ["API_KEY", key] by {
      MarkerShape();
      assert t == "API_KEY" + ['='] + key;
      SplitPrefix("API_KEY", key, '=');
      SplitFree(key, '=');
    }
  }

  /** Surrounding white space in the file does not reach the key: a file holding "API_KEY=k" with k stripped yields k. */
  lemma KeyFile(key: string)
    requires '=' !in key
    requires key == [] || !IsSpace(key[|key| - 1])
    ensures ParseApiKey(Marker + key) == key
  {
    var t := Marker + key;
    assert t[0] == 'A' && t[|t| - 1] == if key == [] then '=' else key[|key| - 1];
    StripNoSpace(t);
    KeyLine(key);
  }

  /**
   * The key: the first file when it exists, else the parent directory's,
   * else none (the warning is printed and the Google search stays off).
   */
  function LoadApiKey(primary: Option<string>, parent: Option<string>): (key: Option<string>)
    ensures key.None? <==> primary.None? && parent.None?
    ensures primary.Some? ==> key == Some(ParseApiKey(primary.value))
    ensures primary.None? && parent.Some? ==> key == Some(ParseApiKey(parent.value))
  {
    match primary
    case Some(c) => Some(ParseApiKey(c))
    case None =>
      match parent
      case Some(c) => Some(ParseApiKey(c))
      case None => None
  }
}
