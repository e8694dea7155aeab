/** The pure helpers of the utility library: joining CSS class names and naming a month. */
module Utils {
  import opened Wrappers
  import Text

  /** An argument of `cn`: a text, `undefined`, `null` or `false`. */
  datatype ClassValue = Name(text: string) | Undefined | NullValue | False

  /** `Boolean(c)`: only a non-empty text is truthy. */
  predicate Truthy(c: ClassValue)
  {
    c.Name? && c.text != ""
  }

  /** The truthy arguments' texts, in order. */
  function Kept(classes: seq<ClassValue>): (r: seq<string>)
    ensures |r| <= |classes|
    ensures forall i :: 0 <= i < |r| ==> r[i] != ""
    ensures forall i :: 0 <= i < |classes| && Truthy(classes[i]) ==> classes[i].text in r
    ensures forall s :: s in r ==> Name(s) in classes
    ensures (forall i :: 0 <= i < |classes| ==> !Truthy(classes[i])) <==> r == []
  {
    if classes == [] then []
    else
      var rest := Kept(classes[1..]);
      assert forall i :: 1 <= i < |classes| ==> classes[i] == classes[1..][i - 1];
      if Truthy(classes[0]) then [classes[0].text] + rest else rest
  }

  /** `classes.filter(Boolean).join(" ")`. */
  function Cn(classes: seq<ClassValue>): (r: string)
    ensures (forall i :: 0 <= i < |classes| ==> !Truthy(classes[i])) ==> r == ""
  {
    Text.Join(Kept(classes), " ")
  }

  /**
   * Class names without spaces are recovered by splitting the result on single spaces:
   * nothing falsy is left in it and nothing truthy is lost or reordered.
   */
  lemma CnSplitsBack(classes: seq<ClassValue>)
    requires exists i :: 0 <= i < |classes| && Truthy(classes[i])
    requires forall i :: 0 <= i < |classes| && classes[i].Name? ==> ' ' !in classes[i].text
    ensures Text.Split(Cn(classes), ' ') == Kept(classes)
    ensures forall s :: s in Text.Split(Cn(classes), ' ') ==> s != "" && Name(s) in classes
  {
    var kept := Kept(classes);
    forall j | 0 <= j < |kept| ensures ' ' !in kept[j] {
      assert Name(kept[j]) in classes;
    }
    Text.SplitJoin(kept, ' ');
  }

  /** The months of the year, January first. */
  const MonthNames: seq<string> :=
    ["January", "February", "March", "April", "May", "June",
     "July", "August", "September", "October", "November", "December"]

  /** `getMonthName`: the name of a zero-based month, nothing (`undefined`) outside 0..11. */
  function MonthName(monthIndex: int): (r: Option<string>)
    ensures r.Some? <==> 0 <= monthIndex < 12
    ensures monthIndex == 0 ==> r == Some("January")
    ensures monthIndex == 11 ==> r == Some("December")
  {
    if 0 <= monthIndex < |MonthNames| then Some(MonthNames[monthIndex]) else None
  }

  /** Different months have different names, so a name determines its month. */
  lemma MonthNamesDistinct(i: int, j: int)
    requires MonthName(i).Some? && MonthName(i) == MonthName(j)
    ensures i == j
  {
    assert forall a, b :: 0 <= a < b < 12 ==> |MonthNames[a]| != |MonthNames[b]| || MonthNames[a][0] != MonthNames[b][0] || MonthNames[a][1] != MonthNames[b][1] || MonthNames[a][2] != MonthNames[b][2];
  }
}
