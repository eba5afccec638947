/** `drawSkillsBarChart`: one horizontal bar per skill, highest first, on an
    800-wide canvas whose height grows with the row count up to 600. Amounts are
    read as percentages of a fixed maximum of 100. */
module SkillsBarChart {
  import opened Wrappers
  import opened JsStrings
  import opened StableSort
  import opened Svg

  const BarHeight: int := 25
  const Gap: int := 10
  const RowPitch: int := 35 // barHeight + gap
  const Width: int := 800
  const HeightCap: int := 600
  const MaxSkill: int := 100
  const TrackX: int := 100
  const TrackWidth: int := 640 // width - 160
  const SkillPrefix: string := "skill_"

  /** One element of `skillsData`: a skill transaction's `type` and `amount`. */
  datatype Skill = Skill(skillType: string, amount: int)

  /** The comparator `(a, b) => b.amount - a.amount` is `key(a) - key(b)` for this key. */
  function DescendingAmount(s: Skill): int {
    -s.amount
  }

  /** `[...skillsData].sort((a, b) => b.amount - a.amount)`: a sorted copy. */
  function SortSkills(skills: seq<Skill>): seq<Skill> {
    SortBy(skills, DescendingAmount)
  }

  /** The bars are a permutation of the input with amounts never increasing
      down the chart, and skills with equal amounts (equal keys `k == -amount`)
      keep their input order. */
  lemma SortSkillsOrder(skills: seq<Skill>)
    ensures |SortSkills(skills)| == |skills| && multiset(SortSkills(skills)) == multiset(skills)
    ensures forall i, j :: 0 <= i < j < |skills| ==> SortSkills(skills)[i].amount >= SortSkills(skills)[j].amount
    ensures forall k :: WithKey(SortSkills(skills), DescendingAmount, k) == WithKey(skills, DescendingAmount, k)
  {
    var r := SortSkills(skills);
    assert SortedBy(r, DescendingAmount);
    forall i, j | 0 <= i < j < |skills|
      ensures r[i].amount >= r[j].amount
    {
      assert DescendingAmount(r[i]) <= DescendingAmount(r[j]);
    }
    forall k
      ensures WithKey(r, DescendingAmount, k) == WithKey(skills, DescendingAmount, k)
    {
      SortByStable(skills, DescendingAmount, k);
    }
  }

  /** `Math.min(n * (barHeight + gap), 600)`. */
  function CanvasHeight(n: nat): int {
    if n * RowPitch < HeightCap then n * RowPitch else HeightCap
  }

  /** The canvas is capped at 600, so only the first 17 rows fit completely;
      for 18 rows or more the later rows fall partly or wholly below it. */
  lemma RowVisibility(n: nat, i: nat)
    requires i < n
    ensures CanvasHeight(n) <= HeightCap
    ensures n * RowPitch <= HeightCap ==> CanvasHeight(n) == n * RowPitch
    ensures n * RowPitch >= HeightCap ==> CanvasHeight(n) == HeightCap
    ensures i * RowPitch + BarHeight <= CanvasHeight(n) <==> i < 17
  {
  }

  /** `Math.min((amount / maxSkill) * 100, 100)`. */
  function Percentage(amount: int): real {
    var raw := (amount as real / MaxSkill as real) * 100.0;
    if raw < 100.0 then raw else 100.0
  }

  /** `(percentage / 100) * (width - 160)`. */
  function FilledWidth(percentage: real): real {
    (percentage / 100.0) * TrackWidth as real
  }

  /** The percentage is the amount clamped to 100, and the filled bar never
      extends past the 640-wide track; it is proportional below the clamp. */
  lemma BarWidth(amount: int)
    ensures Percentage(amount) == if amount < 100 then amount as real else 100.0
    ensures FilledWidth(Percentage(amount)) <= TrackWidth as real
    ensures amount >= 0 ==> 0.0 <= FilledWidth(Percentage(amount))
    ensures amount >= 100 ==> FilledWidth(Percentage(amount)) == TrackWidth as real
    ensures amount <= 100 ==> FilledWidth(Percentage(amount)) == amount as real * 6.4
  {
  }

  /** `item.type.replace("skill_", "")`. */
  function SkillLabel(skillType: string): string {
    ReplaceFirst(skillType, SkillPrefix, "")
  }

  /** The label drops the `skill_` prefix, leaves a type without `skill_` as it
      is, and otherwise removes exactly the first occurrence, keeping the text
      on both sides of it (`"my_skill_x"` becomes `"my_x"`). */
  lemma SkillLabelStrips(skillType: string)
    ensures forall t :: skillType == SkillPrefix + t ==> SkillLabel(skillType) == t
    ensures !Includes(skillType, SkillPrefix) ==> SkillLabel(skillType) == skillType
    ensures Includes(skillType, SkillPrefix) ==> |SkillLabel(skillType)| == |skillType| - |SkillPrefix|
    ensures Includes(skillType, SkillPrefix) ==>
      exists i: nat :: OccursAt(skillType, SkillPrefix, i) &&
        (forall k: nat :: k < i ==> !OccursAt(skillType, SkillPrefix, k)) &&
        SkillLabel(skillType) == skillType[..i] + skillType[i + |SkillPrefix|..]
  {
    ReplaceFirstCases(skillType, SkillPrefix, "");
  }

  /** Row `i`: background track, filled bar, skill label and value label. */
  function Row(item: Skill, i: nat): seq<Shape> {
    var y := (i * RowPitch) as real;
    var percentage := Percentage(item.amount);
    var filledWidth := FilledWidth(percentage);
    [Rect(TrackX as real, y, TrackWidth as real, BarHeight as real, Track),
     Rect(TrackX as real, y, filledWidth, BarHeight as real, Fill),
     Text(0.0, y + 15.0, SkillName(SkillLabel(item.skillType))),
     Text(TrackX as real + filledWidth + 5.0, y + BarHeight as real / 2.0 + 4.0, Percent(percentage))]
  }

  /** The rows for the first `k` sorted skills. */
  function RowsUpTo(sorted: seq<Skill>, k: nat): seq<Shape>
    requires k <= |sorted|
  {
    if k == 0 then [] else RowsUpTo(sorted, k - 1) + Row(sorted[k - 1], k - 1)
  }

  /** The svg `drawSkillsBarChart` builds. */
  function BarChartImage(skills: seq<Skill>): Image {
    var sorted := SortSkills(skills);
    Image(Width as real, CanvasHeight(|sorted|) as real, RowsUpTo(sorted, |sorted|))
  }

  /** Four shapes per row; row `i` of the chart is the row for the `i`-th sorted skill. */
  lemma {:induction false} RowsUpToAt(sorted: seq<Skill>, k: nat)
    requires k <= |sorted|
    ensures |RowsUpTo(sorted, k)| == 4 * k
    ensures forall i :: 0 <= i < k ==> RowsUpTo(sorted, k)[4 * i..4 * i + 4] == Row(sorted[i], i)
  {
    if k > 0 {
      RowsUpToAt(sorted, k - 1);
      var rows := RowsUpTo(sorted, k);
      assert rows[..4 * (k - 1)] == RowsUpTo(sorted, k - 1);
      forall i | 0 <= i < k
        ensures rows[4 * i..4 * i + 4] == Row(sorted[i], i)
      {
        if i < k - 1 {
          assert rows[4 * i..4 * i + 4] == RowsUpTo(sorted, k - 1)[4 * i..4 * i + 4];
        }
      }
    }
  }

  /** The shapes of one row: the track at the row's height spanning 640, the
      filled bar on it and no wider, and the label with the prefix removed. */
  lemma RowShapes(item: Skill, i: nat)
    ensures var row := Row(item, i);
            var y := (RowPitch * i) as real;
            |row| == 4 &&
            row[0] == Rect(TrackX as real, y, TrackWidth as real, BarHeight as real, Track) &&
            row[1] == Rect(TrackX as real, y, FilledWidth(Percentage(item.amount)), BarHeight as real, Fill) &&
            row[1].width <= row[0].width &&
            row[2] == Text(0.0, y + 15.0, SkillName(SkillLabel(item.skillType)))
  {
    BarWidth(item.amount);
  }

  /** The layout of row `i`: the skill with the `i`-th largest amount, its track
      at y = 35 i spanning 640, its bar of width 6.4 * min(amount, 100) on top
      of it, and its label with the `skill_` prefix removed. */
  lemma BarLayout(skills: seq<Skill>, i: nat)
    requires i < |skills|
    ensures var rows := BarChartImage(skills).children;
            |rows| == 4 * |skills| && rows[4 * i..4 * i + 4] == Row(SortSkills(skills)[i], i)
  {
    var sorted := SortSkills(skills);
    RowsUpToAt(sorted, |sorted|);
  }

  /** The `forEach` over the sorted skills, appending four shapes per row. */
  method AppendRows(sorted: seq<Skill>) returns (shapes: seq<Shape>)
    ensures shapes == RowsUpTo(sorted, |sorted|)
  {
    shapes := [];
    var i := 0;
    while i < |sorted|
      invariant 0 <= i <= |sorted|
      invariant shapes == RowsUpTo(sorted, i)
    {
      var item := sorted[i];
      var y := (i * RowPitch) as real;
      var percentage := Percentage(item.amount);
      var filledWidth := FilledWidth(percentage);
      shapes := shapes + [Rect(TrackX as real, y, TrackWidth as real, BarHeight as real, Track)];
      shapes := shapes + [Rect(TrackX as real, y, filledWidth, BarHeight as real, Fill)];
      shapes := shapes + [Text(0.0, y + 15.0, SkillName(SkillLabel(item.skillType)))];
      shapes := shapes + [Text(TrackX as real + filledWidth + 5.0, y + BarHeight as real / 2.0 + 4.0, Percent(percentage))];
      i := i + 1;
    }
  }

  /** `drawSkillsBarChart(skillsData, chartTitle, containerId)`. With no data it
      returns before drawing anything; with a missing container it draws and
      then returns without touching any container; otherwise the container's
      content is replaced by one wrapper holding the title and the chart. The
      caller's sequence is a value and is never reordered. */
  method DrawSkillsBarChart(doc: Document, skillsData: Option<seq<Skill>>,
                            chartTitle: string := "Skills", containerId: string := "skills-chart")
    modifies doc.elements.Values
    ensures (skillsData.None? || skillsData.value == [] || containerId !in doc.elements) ==>
      unchanged(doc.elements.Values)
    ensures skillsData.Some? && skillsData.value != [] && containerId in doc.elements ==>
      doc.elements[containerId].children == [ChartWrapper(chartTitle, BarChartImage(skillsData.value))]
    ensures containerId in doc.elements ==>
      forall c | c in doc.elements.Values && c != doc.elements[containerId] :: c.children == old(c.children)
  {
    if skillsData.None? || |skillsData.value| == 0 {
      return;
    }
    var sortedSkills := SortSkills(skillsData.value);
    var height := CanvasHeight(|sortedSkills|);
    var shapes := AppendRows(sortedSkills);
    Mount(doc, containerId, chartTitle, Image(Width as real, height as real, shapes));
  }
}
