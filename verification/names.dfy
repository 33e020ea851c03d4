/** Object-name sanitising: `safe_name` turns every space and every hyphen of
    a host object name into an underscore, so the name can serve as a file
    name and as an identifier in the viewer. */
module Names {

  /** `s.replace(from, to)` for a single-character pattern: every occurrence
      of `from` becomes `to`, everything else stays where it was. */
  function Replace(s: string, from: char, to: char): (r: string)
    ensures |r| == |s|
    ensures forall i :: 0 <= i < |s| && s[i] == from ==> r[i] == to
    ensures forall i :: 0 <= i < |s| && s[i] != from ==> r[i] == s[i]
    decreases |s|
  {
    if |s| == 0 then ""
    else [if s[0] == from then to else s[0]] + Replace(s[1..], from, to)
  }

  /** The characters `safe_name` rewrites. */
  predicate Unsafe(c: char) {
    c == ' ' || c == '-'
  }

  /** A name in which no space or hyphen is left. */
  predicate IsSafe(s: string) {
    forall i :: 0 <= i < |s| ==> !Unsafe(s[i])
  }

  /** `safe_name(name)`: replace spaces, then hyphens, by underscores.
      The result has the input's length, no space or hyphen, an underscore
      where the input had one of them, and the input's character everywhere
      else. */
  function SafeName(name: string): (r: string)
    ensures |r| == |name|
    ensures IsSafe(r)
    ensures forall i :: 0 <= i < |name| && Unsafe(name[i]) ==> r[i] == '_'
    ensures forall i :: 0 <= i < |name| && !Unsafe(name[i]) ==> r[i] == name[i]
  {
    Replace(Replace(name, ' ', '_'), '-', '_')
  }

  /** Sanitising a sanitised name changes nothing. */
  lemma SafeNameIdempotent(name: string)
    ensures SafeName(SafeName(name)) == SafeName(name)
  {
    var once := SafeName(name);
    var twice := SafeName(once);
    assert forall i :: 0 <= i < |once| ==> twice[i] == once[i];
  }

  /** A name is left unchanged exactly when it already holds no space and
      no hyphen. */
  lemma SafeNameFixedPoint(name: string)
    ensures SafeName(name) == name <==> IsSafe(name)
  {
    if IsSafe(name) {
      assert forall i :: 0 <= i < |name| ==> SafeName(name)[i] == name[i];
    }
  }

  /** Names that differ only in spaces, hyphens and underscores at the same
      positions sanitise to the same name: "My Cube", "My-Cube" and
      "My_Cube" all export as "My_Cube". */
  lemma SafeNameCollides(a: string, b: string)
    requires |a| == |b|
    requires forall i :: 0 <= i < |a| ==>
      a[i] == b[i] || ((Unsafe(a[i]) || a[i] == '_') && (Unsafe(b[i]) || b[i] == '_'))
    ensures SafeName(a) == SafeName(b)
  {
    var ra, rb := SafeName(a), SafeName(b);
    assert forall i :: 0 <= i < |a| ==> ra[i] == rb[i];
  }

  /** The space in "My Cube" becomes an underscore. */
  lemma SafeNameMyCube(name: string)
    requires name == "My Cube"
    ensures SafeName(name) == "My_Cube"
  {
    var n := SafeName(name);
    assert |n| == 7;
    assert name[0] == 'M' && name[1] == 'y' && name[2] == ' ' && name[3] == 'C';
    assert name[4] == 'u' && name[5] == 'b' && name[6] == 'e';
    assert n[0] == 'M' && n[1] == 'y' && n[2] == '_' && n[3] == 'C';
    assert n[4] == 'u' && n[5] == 'b' && n[6] == 'e';
  }
}
