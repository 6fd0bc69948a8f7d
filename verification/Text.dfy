/** The byte order of texts, as strings.Compare and sort.Strings use it. */
module Text {

  function Compare(left: string, right: string): (r: int)
    ensures -1 <= r <= 1
  {
    if left == "" then if right == "" then 0 else -1
    else if right == "" then 1
    else if left[0] < right[0] then -1
    else if right[0] < left[0] then 1
    else Compare(left[1..], right[1..])
  }

  lemma {:induction false} CompareIsAntisymmetric(left: string, right: string)
    ensures Compare(left, right) == -Compare(right, left)
  {
    if left != "" && right != "" {
      CompareIsAntisymmetric(left[1..], right[1..]);
    }
  }

  lemma {:induction false} CompareIsZeroOnlyOnEqual(left: string, right: string)
    ensures Compare(left, right) == 0 <==> left == right
  {
    if left != "" && right != "" {
      CompareIsZeroOnlyOnEqual(left[1..], right[1..]);
      assert left == [left[0]] + left[1..] && right == [right[0]] + right[1..];
    }
  }

  lemma {:induction false} CompareIsTransitive(a: string, b: string, c: string)
    requires Compare(a, b) <= 0 && Compare(b, c) <= 0
    ensures Compare(a, c) <= 0
    ensures Compare(a, c) == 0 ==> Compare(a, b) == 0 && Compare(b, c) == 0
  {
    if a != "" && b != "" && c != "" {
      if a[0] == b[0] && b[0] == c[0] {
        CompareIsTransitive(a[1..], b[1..], c[1..]);
      }
    }
  }

  /** Two parts joined by a NUL can be told apart again if the first parts have none. */
  lemma JoinedTexts(left: string, leftRest: string, right: string, rightRest: string)
    requires '\0' !in left && '\0' !in right
    ensures left + "\0" + leftRest == right + "\0" + rightRest <==> left == right && leftRest == rightRest
  {
    var l, r := left + "\0" + leftRest, right + "\0" + rightRest;
    if l == r {
      assert l[|left|] == '\0' && r[|right|] == '\0';
      assert l[..|left|] == left && r[..|right|] == right;
      assert l[|left| + 1..] == leftRest && r[|right| + 1..] == rightRest;
    }
  }
}
