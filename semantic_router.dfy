/**
 * The classifier node (src/workflow/node/semantic_router.py): it rewrites the user
 * input and records the category the language model picked.
 */
module Router {
  import opened State
  import Strings

  /** The classifier's structured result, as the language model returns it. */
  datatype Category = Category(name: string, userInput: string, revisedUserInput: string, reason: string)

  /** The input the turn continues with: Python's `revised_user_input or user_input`. */
  function ChosenInput(c: Category): (r: string)
    ensures c.revisedUserInput != "" ==> r == c.revisedUserInput
    ensures c.revisedUserInput == "" ==> r == c.userInput
  {
    if c.revisedUserInput != "" then c.revisedUserInput else c.userInput
  }

  /** `SemanticRouter.__call__`: the state with the chosen input and the category. */
  function Route(s: ResearchState, c: Category): (r: ResearchState)
    ensures r.userInput == ChosenInput(c) && r.category == Some(c.name)
    ensures r.(userInput := s.userInput, category := s.category) == s
  {
    s.(userInput := ChosenInput(c), category := Some(c.name))
  }

  /** A category description: the key/value pairs of one dictionary, in insertion order. */
  type CategorySpec = seq<(string, string)>

  function FieldLine(kv: (string, string)): string {
    "<" + kv.0 + ">" + kv.1 + "</" + kv.0 + ">"
  }

  function FieldLines(c: CategorySpec): seq<string> {
    seq(|c|, i requires 0 <= i < |c| => FieldLine(c[i]))
  }

  /** The lines of one category block. */
  function CategoryBlock(c: CategorySpec): seq<string> {
    ["<category>"] + FieldLines(c) + ["</category>"]
  }

  /** All lines `_build_category_tags` collects, category by category. */
  function CategoryLines(cats: seq<CategorySpec>): seq<string>
    decreases |cats|
  {
    if |cats| == 0 then [] else CategoryLines(cats[..|cats| - 1]) + CategoryBlock(cats[|cats| - 1])
  }

  /** The number of lines the blocks take: two tags plus one line per key. */
  function LineCount(cats: seq<CategorySpec>): nat
    decreases |cats|
  {
    if |cats| == 0 then 0 else LineCount(cats[..|cats| - 1]) + 2 + |cats[|cats| - 1]|
  }

  /** `_build_category_tags`: the nested loop that collects the lines, joined by newlines. */
  method BuildCategoryTags(cats: seq<CategorySpec>) returns (text: string)
    ensures text == Strings.Join("\n", CategoryLines(cats))
  {
    var result: seq<string> := [];
    for i := 0 to |cats|
      invariant result == CategoryLines(cats[..i])
    {
      result := result + ["<category>"];
      var c := cats[i];
      for j := 0 to |c|
        invariant result == CategoryLines(cats[..i]) + ["<category>"] + FieldLines(c[..j])
      {
        assert FieldLines(c[..j + 1]) == FieldLines(c[..j]) + [FieldLine(c[j])];
        result := result + [FieldLine(c[j])];
      }
      assert c[..|c|] == c;
      assert cats[..i + 1][..i] == cats[..i];
      result := result + ["</category>"];
    }
    assert cats[..|cats|] == cats;
    text := Strings.Join("\n", result);
  }

  /**
   * Each block starts with `<category>`, holds one `<k>v</k>` line per key in order and
   * ends with `</category>`; the blocks follow the category order.
   */
  lemma {:induction false} CategoryLinesShape(cats: seq<CategorySpec>, i: nat)
    requires i < |cats|
    ensures |CategoryLines(cats)| == LineCount(cats)
    ensures LineCount(cats[..i]) + 2 + |cats[i]| <= LineCount(cats)
    ensures CategoryLines(cats)[LineCount(cats[..i])] == "<category>"
    ensures forall j :: 0 <= j < |cats[i]| ==> CategoryLines(cats)[LineCount(cats[..i]) + 1 + j] == FieldLine(cats[i][j])
    ensures CategoryLines(cats)[LineCount(cats[..i]) + 1 + |cats[i]|] == "</category>"
    decreases |cats|
  {
    var n := |cats|;
    var init := cats[..n - 1];
    LineCountIsLength(init);
    if i < n - 1 {
      CategoryLinesShape(init, i);
      assert init[..i] == cats[..i];
      assert init[i] == cats[i];
      assert CategoryLines(cats) == CategoryLines(init) + CategoryBlock(cats[n - 1]);
    } else {
      assert cats[..i] == init;
    }
  }

  lemma {:induction false} LineCountIsLength(cats: seq<CategorySpec>)
    ensures |CategoryLines(cats)| == LineCount(cats)
    decreases |cats|
  {
    if |cats| > 0 {
      LineCountIsLength(cats[..|cats| - 1]);
    }
  }

  /** With newline-free keys and values, the tag text splits into exactly `LineCount` lines. */
  lemma CategoryTagLineCount(cats: seq<CategorySpec>)
    requires |cats| > 0
    requires forall c, kv :: c in cats && kv in c ==> Strings.NoNewline(kv.0) && Strings.NoNewline(kv.1)
    ensures |Strings.Lines(Strings.Join("\n", CategoryLines(cats)))| == LineCount(cats)
  {
    CategoryLinesNoNewline(cats);
    LineCountIsLength(cats);
    CategoryLinesShape(cats, 0);
    Strings.LinesOfJoin(CategoryLines(cats));
  }

  lemma {:induction false} CategoryLinesNoNewline(cats: seq<CategorySpec>)
    requires forall c, kv :: c in cats && kv in c ==> Strings.NoNewline(kv.0) && Strings.NoNewline(kv.1)
    ensures forall k :: 0 <= k < |CategoryLines(cats)| ==> Strings.NoNewline(CategoryLines(cats)[k])
    decreases |cats|
  {
    if |cats| > 0 {
      var init := cats[..|cats| - 1];
      var last := cats[|cats| - 1];
      assert forall c :: c in init ==> c in cats;
      CategoryLinesNoNewline(init);
      forall j | 0 <= j < |last|
        ensures Strings.NoNewline(FieldLine(last[j]))
      {
        assert last[j] in last;
      }
      var block := CategoryBlock(last);
      assert forall k :: 0 <= k < |block| ==> Strings.NoNewline(block[k]);
    }
  }
}
