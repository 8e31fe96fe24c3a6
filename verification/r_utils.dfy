/**
 * Formatting a vector of strings as an R vector literal. The elements
 * are strings already: `', '.join` raises on anything else, so a vector
 * of numbers must be converted by the caller.
 */
module RUtils {
  import opened Text
  import opened Outcome

  /** Python truthiness of the optional `name` argument: None and "" are false. */
  predicate IsTruthy(name: Option<string>) {
    name.Some? && name.value != ""
  }

  /** What `make_r_vector` puts before the literal: "name <- " for a truthy name, nothing otherwise. */
  function NamePrefix(name: Option<string>): string {
    if IsTruthy(name) then name.value + " <- " else ""
  }

  /** No element holds a comma, so the elements can be told apart in the literal. */
  predicate CommaFree(vector: seq<string>) {
    forall i :: 0 <= i < |vector| ==> ',' !in vector[i]
  }

  /**
   * `make_r_vector(vector, name)`: the name prefix, then an R literal
   * `c(...)` from which a non-empty, comma-free vector is read back in
   * order; the empty vector gives `c()`.
   */
  function MakeRVector(vector: seq<string>, name: Option<string>): (r: string)
    ensures var p := NamePrefix(name);
      |r| >= |p| + 3 && r[..|p|] == p && r[|p|..|p| + 2] == "c(" && r[|r| - 1] == ')'
    ensures vector == [] ==> r == NamePrefix(name) + "c()"
    ensures |vector| >= 1 && CommaFree(vector) ==>
      ParseBody(Body(r[|NamePrefix(name)|..])) == vector
  {
    var csv := Join(", ", vector);
    var r := if IsTruthy(name) then name.value + " <- c(" + csv + ")" else "c(" + csv + ")";
    assert r == NamePrefix(name) + ("c(" + csv + ")");
    PrefixedLiteral(NamePrefix(name), vector);
    r
  }

  /** The facts `MakeRVector` promises, for a prefix followed by the literal of `vector`. */
  lemma PrefixedLiteral(p: string, vector: seq<string>)
    ensures var r := p + ("c(" + Join(", ", vector) + ")");
      |r| >= |p| + 3 && r[..|p|] == p && r[|p|..|p| + 2] == "c(" && r[|r| - 1] == ')'
      && (vector == [] ==> r == p + "c()")
      && (|vector| >= 1 && CommaFree(vector) ==> ParseBody(Body(r[|p|..])) == vector)
  {
    var csv := Join(", ", vector);
    var r := p + ("c(" + csv + ")");
    assert r[|p|..] == "c(" + csv + ")";
    BodyOfLiteral(csv);
    ParseCommaSpaceJoin(vector);
  }

  /** The text between "c(" and ")" of an unnamed R vector literal. */
  function Body(r: string): string {
    if |r| >= 3 && r[..2] == "c(" && r[|r| - 1] == ')' then r[2..|r| - 1] else r
  }

  /** Reads an R vector body back: split on ',' and drop the one space that follows each comma. */
  function ParseBody(body: string): seq<string> {
    var parts := SplitOn(body, ',');
    [parts[0]] + seq(|parts| - 1, i requires 0 <= i < |parts| - 1 => DropSpace(parts[i + 1]))
  }

  function DropSpace(s: string): string {
    if |s| > 0 && s[0] == ' ' then s[1..] else s
  }

  /** A truthy name only prefixes the unnamed literal with "name <- ". */
  lemma NamedRVector(vector: seq<string>, name: string)
    requires name != ""
    ensures MakeRVector(vector, Some(name)) == name + " <- " + MakeRVector(vector, None)
  {
  }

  lemma BodyOfLiteral(csv: string)
    ensures Body("c(" + csv + ")") == csv
  {
    var r := "c(" + csv + ")";
    assert r[..2] == "c(" && r[|r| - 1] == ')';
    assert r[2..|r| - 1] == csv;
  }

  /** Padding every element but the first with a space keeps the elements comma-free. */
  lemma PaddedHasNoComma(vector: seq<string>)
    requires |vector| >= 1
    requires forall i :: 0 <= i < |vector| ==> ',' !in vector[i]
    ensures var padded := Padded(vector);
      forall i :: 0 <= i < |padded| ==> ',' !in padded[i]
  {
    var padded := Padded(vector);
    forall i | 0 < i < |padded| ensures ',' !in padded[i] {
      assert padded[i] == " " + vector[i];
    }
  }

  function Padded(vector: seq<string>): (p: seq<string>)
    requires |vector| >= 1
    ensures |p| == |vector| && p[0] == vector[0]
    ensures forall i :: 0 < i < |p| ==> p[i] == " " + vector[i]
  {
    [vector[0]] + seq(|vector| - 1, i requires 0 <= i < |vector| - 1 => " " + vector[i + 1])
  }

  /** The elements of a non-empty, comma-free vector are read back, in
      order, from their ", "-join. */
  lemma ParseCommaSpaceJoin(vector: seq<string>)
    ensures |vector| >= 1 && CommaFree(vector) ==> ParseBody(Join(", ", vector)) == vector
  {
    if |vector| == 0 || !CommaFree(vector) {
      return;
    }
    var padded := Padded(vector);
    CommaSpaceJoin(vector);
    PaddedHasNoComma(vector);
    SplitOnJoin(padded, ',');
    assert SplitOn(Join(", ", vector), ',') == padded;
    var parsed := ParseBody(Join(", ", vector));
    forall i | 0 < i < |vector| ensures parsed[i] == vector[i] {
      assert DropSpace(padded[i]) == vector[i];
    }
  }

  /** Joining with ", " is joining with "," after prefixing every element but the first with " ". */
  lemma {:induction false} CommaSpaceJoin(vector: seq<string>)
    requires |vector| >= 1
    ensures Join(", ", vector) == Join([','], Padded(vector))
  {
    var padded := Padded(vector);
    if |vector| > 1 {
      var rest := vector[1..];
      CommaSpaceJoin(rest);
      var restPadded := Padded(rest);
      assert padded[1..] == [" " + restPadded[0]] + restPadded[1..];
      JoinHead([','], " ", restPadded);
      assert Join([','], padded) == vector[0] + [','] + (" " + Join([','], restPadded));
      assert Join(", ", vector) == vector[0] + ", " + Join(", ", rest);
    }
  }
}
