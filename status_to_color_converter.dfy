/**
 * The MAUI value converter that colours a status line: an ordered series of
 * substring tests (success markers first, then failure markers, then
 * progress markers), with gray for everything else.
 */
module StatusToColorConverter {
  import opened Text

  datatype Color = Green | Red | Orange | Gray

  /** The bound value handed to the converter: a string, or anything else (including null). */
  datatype BoundValue = StringValue(s: string) | NonString

  predicate HasSuccessMarker(s: string) {
    Contains(s, "✓") || Contains(s, "Successfully") || Contains(s, "Running")
  }

  predicate HasFailureMarker(s: string) {
    Contains(s, "✗") || Contains(s, "Failed") || Contains(s, "Error")
  }

  predicate HasProgressMarker(s: string) {
    Contains(s, "Starting") || Contains(s, "Checking")
  }

  /**
   * `Convert`: the first matching test decides, so success markers win over
   * failure markers, and failure markers over progress markers.
   */
  function Convert(value: BoundValue): (c: Color)
    ensures c == Green <==> value.StringValue? && HasSuccessMarker(value.s)
    ensures c == Red <==> value.StringValue? && !HasSuccessMarker(value.s) && HasFailureMarker(value.s)
    ensures c == Orange <==>
      value.StringValue? && !HasSuccessMarker(value.s) && !HasFailureMarker(value.s) && HasProgressMarker(value.s)
    ensures c == Gray <==>
      value.NonString? || (!HasSuccessMarker(value.s) && !HasFailureMarker(value.s) && !HasProgressMarker(value.s))
  {
    match value
    case StringValue(status) =>
      if HasSuccessMarker(status) then Green
      else if HasFailureMarker(status) then Red
      else if HasProgressMarker(status) then Orange
      else Gray
    case NonString => Gray
  }

  /**
   * A string avoiding "✓", one letter of "Successfully" and one letter (or
   * else the opening pair) of "Running" carries no success marker.
   */
  lemma NoSuccessMarker(s: string, bad: set<char>)
    requires Avoids(s, bad) && '✓' in bad
    requires 'S' in bad || 'u' in bad || 'y' in bad
    requires 'R' in bad || 'u' in bad || NoPair(s, 'R', 'u')
    ensures !HasSuccessMarker(s)
  {
    AbsentByChar(s, bad, "✓", 0);
    if 'S' in bad {
      AbsentByChar(s, bad, "Successfully", 0);
    } else if 'u' in bad {
      AbsentByChar(s, bad, "Successfully", 1);
    } else {
      AbsentByChar(s, bad, "Successfully", 11);
    }
    if 'R' in bad {
      AbsentByChar(s, bad, "Running", 0);
    } else if 'u' in bad {
      AbsentByChar(s, bad, "Running", 1);
    } else {
      AbsentByPair(s, "Running", 0);
    }
  }

  /** A string avoiding "✗" and one letter each of "Failed" and "Error" carries no failure marker. */
  lemma NoFailureMarker(s: string, bad: set<char>)
    requires Avoids(s, bad) && '✗' in bad
    requires 'F' in bad || 'a' in bad || 'i' in bad
    requires 'E' in bad || 'o' in bad
    ensures !HasFailureMarker(s)
  {
    AbsentByChar(s, bad, "✗", 0);
    if 'F' in bad {
      AbsentByChar(s, bad, "Failed", 0);
    } else if 'a' in bad {
      AbsentByChar(s, bad, "Failed", 1);
    } else {
      AbsentByChar(s, bad, "Failed", 2);
    }
    if 'E' in bad {
      AbsentByChar(s, bad, "Error", 0);
    } else {
      AbsentByChar(s, bad, "Error", 3);
    }
  }

  /** A string avoiding one letter each of "Starting" and "Checking" carries no progress marker. */
  lemma NoProgressMarker(s: string, bad: set<char>)
    requires Avoids(s, bad)
    requires 'S' in bad || 'a' in bad || 'i' in bad
    requires 'C' in bad || 'h' in bad || 'i' in bad
    ensures !HasProgressMarker(s)
  {
    if 'S' in bad {
      AbsentByChar(s, bad, "Starting", 0);
    } else if 'a' in bad {
      AbsentByChar(s, bad, "Starting", 2);
    } else {
      AbsentByChar(s, bad, "Starting", 5);
    }
    if 'C' in bad {
      AbsentByChar(s, bad, "Checking", 0);
    } else if 'h' in bad {
      AbsentByChar(s, bad, "Checking", 1);
    } else {
      AbsentByChar(s, bad, "Checking", 5);
    }
  }

  /** No marker of any kind: the converter's gray. */
  lemma Unmarked(s: string, bad: set<char>)
    requires Avoids(s, bad) && '✓' in bad && '✗' in bad
    requires 'S' in bad || 'u' in bad || 'y' in bad
    requires 'R' in bad || 'u' in bad
    requires 'F' in bad || 'a' in bad || 'i' in bad
    requires 'E' in bad || 'o' in bad
    requires 'S' in bad || 'a' in bad || 'i' in bad
    requires 'C' in bad || 'h' in bad || 'i' in bad
    ensures !HasSuccessMarker(s) && !HasFailureMarker(s) && !HasProgressMarker(s)
  {
    NoSuccessMarker(s, bad);
    NoFailureMarker(s, bad);
    NoProgressMarker(s, bad);
  }

  /**
   * A status of the form "<prefix><reason> ✗" is red exactly when the
   * reason carries no success marker and green otherwise: the failure mark
   * at the end cannot outweigh a "Running" or "Successfully" inside the
   * reason.
   */
  lemma {:induction false} FailureLineColor(prefix: string, reason: string)
    requires |prefix| > 0 && prefix[|prefix| - 1] == ' '
    requires !HasSuccessMarker(prefix)
    ensures Convert(StringValue(prefix + reason + " ✗")) ==
      if HasSuccessMarker(reason) then Green else Red
  {
    var tail := " ✗";
    var head := prefix + reason;
    ContainsJoin(prefix, reason, "✓");
    ContainsJoin(prefix, reason, "Successfully");
    ContainsJoin(prefix, reason, "Running");
    ContainsJoin(head, tail, "✓");
    ContainsJoin(head, tail, "Successfully");
    ContainsJoin(head, tail, "Running");
    ContainsJoin(head, tail, "✗");
    assert OccursAt(tail, "✗", 1);
    assert Avoids(tail, {'✓', 'u'});
    NoSuccessMarker(tail, {'✓', 'u'});
  }

  /**
   * A label ending in a space and carrying no marker does not change the
   * colour of what follows it: no marker contains a space, so none can
   * straddle the joint.
   */
  lemma PrefixedColor(prefix: string, text: string)
    requires |prefix| > 0 && prefix[|prefix| - 1] == ' '
    requires !HasSuccessMarker(prefix) && !HasFailureMarker(prefix) && !HasProgressMarker(prefix)
    ensures Convert(StringValue(prefix + text)) == Convert(StringValue(text))
  {
    ContainsJoin(prefix, text, "✓");
    ContainsJoin(prefix, text, "Successfully");
    ContainsJoin(prefix, text, "Running");
    ContainsJoin(prefix, text, "✗");
    ContainsJoin(prefix, text, "Failed");
    ContainsJoin(prefix, text, "Error");
    ContainsJoin(prefix, text, "Starting");
    ContainsJoin(prefix, text, "Checking");
  }

  /** A tick makes a line green, whatever else it says. */
  lemma Ticked(s: string)
    requires '✓' in s
    ensures Convert(StringValue(s)) == Green
  {
    ContainsChar(s, '✓');
  }

  /** A cross makes a line red unless a success marker is also present. */
  lemma Crossed(s: string)
    requires '✗' in s && !HasSuccessMarker(s)
    ensures Convert(StringValue(s)) == Red
  {
    ContainsChar(s, '✗');
  }

  /** Two marker-free pieces joined after a space make a marker-free whole. */
  lemma NoSuccessAfterSpace(a: string, b: string)
    requires |a| > 0 && a[|a| - 1] == ' '
    requires !HasSuccessMarker(a) && !HasSuccessMarker(b)
    ensures !HasSuccessMarker(a + b)
  {
    ContainsJoin(a, b, "✓");
    ContainsJoin(a, b, "Successfully");
    ContainsJoin(a, b, "Running");
  }
}
