/**
 * The word-list parser (biomedgraph/parser/big_word_list.py).
 *
 * run reads the files wlist_match3.txt ... wlist_match12.txt of the
 * BigWordList datasource in that order and records, for every stripped line,
 * the indices of the files it occurs in (one entry per occurrence).  A file
 * the datasource does not have is skipped.  Then one Word node is added per
 * distinct word, in the order the words were first seen, with value = the
 * word and match<i> = True for every index of its list.
 */
module BigWordList {
  import opened Results
  import opened PyStr
  import opened Graph
  import Scan

  /** The name of the list file of index i: 'wlist_match{}.txt'.format(i). */
  function MatchFileName(i: nat): (r: string)
  {
    "wlist_match" + NatToStr(i) + ".txt"
  }

  /** range(lo, hi) */
  function Range(lo: nat, hi: nat): (r: seq<nat>)
    ensures |r| == if lo <= hi then hi - lo else 0
    ensures forall k :: 0 <= k < |r| ==> r[k] == lo + k
  {
    if lo < hi then seq(hi - lo, k requires 0 <= k < hi - lo => lo + k) else []
  }

  /** The file indices of run: range(3, 13). */
  function Indices(): seq<nat> {
    Range(3, 13)
  }

  /**
   * word_to_list: the words in the order they were first inserted, and the
   * list of file indices of each.
   */
  datatype WordLists = WordLists(order: seq<string>, lists: map<string, seq<nat>>)

  /** The dict's shape: its key order lists each key once, and every list holds at least one index. */
  ghost predicate Valid(d: WordLists) {
    (forall a, b :: 0 <= a < b < |d.order| ==> d.order[a] != d.order[b]) &&
    (forall w :: w in d.lists <==> w in d.order) &&
    (forall w :: w in d.lists ==> d.lists[w] != [])
  }

  /** The list of a word, empty when it is not a key. */
  function Get(d: WordLists, w: string): seq<nat> {
    if w in d.lists then d.lists[w] else []
  }

  /** One line of file i: append i to the list of its word, or start the list [i]. */
  function AddWord(d: WordLists, w: string, i: nat): (r: WordLists)
    ensures Get(r, w) == Get(d, w) + [i]
    ensures forall v :: v != w ==> Get(r, v) == Get(d, v)
    ensures w in d.lists ==> r.order == d.order
    ensures w !in d.lists ==> r.order == d.order + [w]
  {
    if w in d.lists then WordLists(d.order, d.lists[w := d.lists[w] + [i]])
    else WordLists(d.order + [w], d.lists[w := [i]])
  }

  /** A word added keeps the dict's shape. */
  lemma AddWordValid(d: WordLists, w: string, i: nat)
    requires Valid(d)
    ensures Valid(AddWord(d, w, i))
  {
  }

  /** The lines of file i, each stripped, in order. */
  function AddLines(d: WordLists, i: nat, lines: seq<string>): WordLists
    decreases |lines|
  {
    if lines == [] then d
    else AddWord(AddLines(d, i, lines[..|lines| - 1]), Strip(lines[|lines| - 1]), i)
  }

  /** The lines of a list file, or None where get_file gave no file and open raised TypeError. */
  function FileLines(files: string -> Option<seq<string>>, i: nat): seq<string> {
    match files(MatchFileName(i))
    case Some(lines) => lines
    case None => []
  }

  /** The body of the file loop: a file that cannot be opened is skipped. */
  function AddFile(d: WordLists, files: string -> Option<seq<string>>, i: nat): WordLists {
    match files(MatchFileName(i))
    case Some(lines) => AddLines(d, i, lines)
    case None => d
  }

  /** word_to_list after the files of the indices ks, in order. */
  function Collect(files: string -> Option<seq<string>>, ks: seq<nat>): WordLists
    decreases |ks|
  {
    if ks == [] then WordLists([], map[])
    else AddFile(Collect(files, ks[..|ks| - 1]), files, ks[|ks| - 1])
  }

  /** word_to_list at the end of the file loop. */
  function WordToList(files: string -> Option<seq<string>>): WordLists {
    Collect(files, Indices())
  }

  // ---------------------------------------------------------------------------
  // What the lists hold

  /** The number of lines that strip to w. */
  function Occurrences(w: string, lines: seq<string>): nat
    decreases |lines|
  {
    if lines == [] then 0
    else Occurrences(w, lines[..|lines| - 1]) + (if Strip(lines[|lines| - 1]) == w then 1 else 0)
  }

  /** n copies of i. */
  function Repeat(i: nat, n: nat): (r: seq<nat>)
    ensures |r| == n && forall k :: 0 <= k < n ==> r[k] == i
  {
    seq(n, k requires 0 <= k < n => i)
  }

  lemma RepeatSnoc(i: nat, n: nat)
    ensures Repeat(i, n) + [i] == Repeat(i, n + 1)
  {
    assert forall k :: 0 <= k < n + 1 ==> (Repeat(i, n) + [i])[k] == i;
  }

  /** What file i adds to the list of w: i once per line of the file that strips to w. */
  function WordPiece(files: string -> Option<seq<string>>, w: string): nat -> seq<nat> {
    (i: nat) => Repeat(i, Occurrences(w, FileLines(files, i)))
  }

  /** The lines of a file add to the list of w exactly one i per occurrence of w. */
  lemma {:induction false} AddLinesGet(d: WordLists, i: nat, lines: seq<string>, w: string)
    ensures Get(AddLines(d, i, lines), w) == Get(d, w) + Repeat(i, Occurrences(w, lines))
    decreases |lines|
  {
    if lines != [] {
      var n := |lines| - 1;
      AddLinesGet(d, i, lines[..n], w);
      var prev := AddLines(d, i, lines[..n]);
      var c := Occurrences(w, lines[..n]);
      if Strip(lines[n]) == w {
        assert Get(AddWord(prev, w, i), w) == Get(prev, w) + [i];
        RepeatSnoc(i, c);
        AppendAssoc(Get(d, w), Repeat(i, c), [i]);
      } else {
        assert Get(AddWord(prev, Strip(lines[n]), i), w) == Get(prev, w);
      }
    }
  }

  /** The lines of a file keep the dict's shape. */
  lemma {:induction false} AddLinesValid(d: WordLists, i: nat, lines: seq<string>)
    requires Valid(d)
    ensures Valid(AddLines(d, i, lines))
    decreases |lines|
  {
    if lines != [] {
      var n := |lines| - 1;
      AddLinesValid(d, i, lines[..n]);
      AddWordValid(AddLines(d, i, lines[..n]), Strip(lines[n]), i);
    }
  }

  /**
   * The list of every word is, file by file in the order of ks, one index per
   * line of the file that strips to the word; a file that is missing adds
   * nothing and the later files are still read.
   */
  lemma {:induction false} CollectGet(files: string -> Option<seq<string>>, ks: seq<nat>, w: string)
    ensures Get(Collect(files, ks), w) == Scan.Flat(ks, WordPiece(files, w))
    ensures Valid(Collect(files, ks))
    decreases |ks|
  {
    if ks != [] {
      var n := |ks| - 1;
      CollectGet(files, ks[..n], w);
      var prev := Collect(files, ks[..n]);
      match files(MatchFileName(ks[n]))
      case Some(lines) =>
        AddLinesGet(prev, ks[n], lines, w);
        AddLinesValid(prev, ks[n], lines);
      case None =>
        assert WordPiece(files, w)(ks[n]) == [];
    }
  }

  /** The entries of the pieces of indices in increasing order come out sorted, and each is one of the indices. */
  lemma {:induction false} FlatSorted(files: string -> Option<seq<string>>, w: string, ks: seq<nat>)
    requires forall a, b :: 0 <= a < b < |ks| ==> ks[a] < ks[b]
    ensures forall k :: 0 <= k < |Scan.Flat(ks, WordPiece(files, w))| ==> Scan.Flat(ks, WordPiece(files, w))[k] in ks
    ensures forall a, b :: 0 <= a < b < |Scan.Flat(ks, WordPiece(files, w))| ==>
      Scan.Flat(ks, WordPiece(files, w))[a] <= Scan.Flat(ks, WordPiece(files, w))[b]
    decreases |ks|
  {
    if ks != [] {
      var n := |ks| - 1;
      var front := ks[..n];
      FlatSorted(files, w, front);
      var p := Scan.Flat(front, WordPiece(files, w));
      var last := WordPiece(files, w)(ks[n]);
      assert Scan.Flat(ks, WordPiece(files, w)) == p + last;
      forall k | 0 <= k < |p| ensures p[k] < ks[n] {
        assert p[k] in front;
      }
    }
  }

  /**
   * The list of a word at the end of the file loop: one index per occurrence,
   * file by file; its indices are in reading order and lie between 3 and 12.
   */
  lemma WordList(files: string -> Option<seq<string>>, w: string)
    ensures Valid(WordToList(files))
    ensures Get(WordToList(files), w) == Scan.Flat(Indices(), WordPiece(files, w))
    ensures forall a, b :: 0 <= a < b < |Get(WordToList(files), w)| ==>
      Get(WordToList(files), w)[a] <= Get(WordToList(files), w)[b]
    ensures forall k :: 0 <= k < |Get(WordToList(files), w)| ==> 3 <= Get(WordToList(files), w)[k] <= 12
  {
    CollectGet(files, Indices(), w);
    FlatSorted(files, w, Indices());
  }

  // ---------------------------------------------------------------------------
  // The Word nodes

  /** The property name of index i: "match{}".format(i). */
  function MatchKey(i: nat): (r: string)
    ensures |r| > 0 && r[0] == 'm'
  {
    "match" + NatToStr(i)
  }

  /** The node of a word: value, then match<i> = True for every index of its list, in order. */
  function WordNode(w: string, l: seq<nat>): (p: Props)
    ensures "value" in p && p["value"] == Str(w)
    ensures forall i :: i in l ==> MatchKey(i) in p && p[MatchKey(i)] == Bool(true)
    decreases |l|
  {
    if l == [] then map["value" := Str(w)]
    else
      var n := |l| - 1;
      assert forall i :: i in l <==> i in l[..n] || i == l[n];
      WordNode(w, l[..n])[MatchKey(l[n]) := Bool(true)]
  }

  /** The node has no other property than value and the match<i> of its list. */
  lemma {:induction false} WordNodeKeys(w: string, l: seq<nat>)
    ensures WordNode(w, l).Keys == {"value"} + set i | i in l :: MatchKey(i)
    decreases |l|
  {
    if l != [] {
      var n := |l| - 1;
      WordNodeKeys(w, l[..n]);
      assert forall i :: i in l <==> i in l[..n] || i == l[n];
    }
  }

  /** The nodes of the dict's items, in its order. */
  function Nodes(d: WordLists): (r: seq<Props>)
    ensures |r| == |d.order|
    ensures forall k :: 0 <= k < |r| ==> r[k] == WordNode(d.order[k], Get(d, d.order[k]))
  {
    seq(|d.order|, k requires 0 <= k < |d.order| => WordNode(d.order[k], Get(d, d.order[k])))
  }

  /** One Word node per distinct word: the values of the nodes are pairwise different. */
  lemma NodesDistinct(files: string -> Option<seq<string>>)
    ensures var ns := Nodes(WordToList(files));
      forall a, b :: 0 <= a < b < |ns| ==> ns[a]["value"] != ns[b]["value"]
  {
    var d := WordToList(files);
    var ns := Nodes(d);
    CollectGet(files, Indices(), "");
    forall a, b | 0 <= a < b < |ns| ensures ns[a]["value"] != ns[b]["value"] {
      assert ns[a]["value"] == Str(d.order[a]) && ns[b]["value"] == Str(d.order[b]);
    }
  }

  /** Every word of the lists has a node. */
  lemma NodesCover(files: string -> Option<seq<string>>, w: string)
    requires w in WordToList(files).lists
    ensures exists k :: 0 <= k < |Nodes(WordToList(files))| && Nodes(WordToList(files))[k]["value"] == Str(w)
  {
    var d := WordToList(files);
    CollectGet(files, Indices(), w);
    var k :| 0 <= k < |d.order| && d.order[k] == w;
    assert Nodes(d)[k]["value"] == Str(w);
  }

  /** A word has a node exactly when some readable list file has a line that strips to it. */
  lemma WordPresent(files: string -> Option<seq<string>>, w: string)
    ensures w in WordToList(files).lists <==> Scan.Flat(Indices(), WordPiece(files, w)) != []
  {
    CollectGet(files, Indices(), w);
  }

  lemma NodesNext(d: WordLists, k: nat)
    requires k < |d.order|
    ensures Nodes(d)[..k + 1] == Nodes(d)[..k] + [WordNode(d.order[k], Get(d, d.order[k]))]
  {
  }

  class BigWordListParser {
    /** The Word NodeSet, as the log of its add_node calls. */
    var words: seq<Props>

    constructor ()
      ensures words == []
    {
      words := [];
    }

    /** run: `files` gives the lines of a file of the datasource by name, or None when it has no such file. */
    method Run(files: string -> Option<seq<string>>)
      modifies this
      ensures words == old(words) + Nodes(WordToList(files))
    {
      var order, lists := ReadFiles(files);
      ghost var d := WordLists(order, lists);
      for k := 0 to |order|
        invariant words == old(words) + Nodes(d)[..k]
      {
        var word := order[k];
        var props := WordProps(word, if word in lists then lists[word] else []);
        NodesNext(d, k);
        words := words + [props];
      }
      assert Nodes(d)[..|order|] == Nodes(d);
    }

    /** The file loop: word_to_list. */
    static method ReadFiles(files: string -> Option<seq<string>>) returns (order: seq<string>, lists: map<string, seq<nat>>)
      ensures WordLists(order, lists) == WordToList(files)
    {
      order, lists := [], map[];
      for i := 3 to 13
        invariant WordLists(order, lists) == Collect(files, Range(3, i))
      {
        assert Range(3, i + 1)[..|Range(3, i + 1)| - 1] == Range(3, i);
        var f := files(MatchFileName(i));
        if f.Some? {
          order, lists := ReadFile(order, lists, i, f.value);
        }
      }
    }

    /** The props of one word's node. */
    static method WordProps(word: string, matches: seq<nat>) returns (props: Props)
      ensures props == WordNode(word, matches)
    {
      props := map["value" := Str(word)];
      for j := 0 to |matches|
        invariant props == WordNode(word, matches[..j])
      {
        assert matches[..j + 1][..j] == matches[..j];
        props := props[MatchKey(matches[j]) := Bool(true)];
      }
      assert matches[..|matches|] == matches;
    }

    /** The line loop of one file. */
    static method ReadFile(order0: seq<string>, lists0: map<string, seq<nat>>, i: nat, lines: seq<string>)
      returns (order: seq<string>, lists: map<string, seq<nat>>)
      ensures WordLists(order, lists) == AddLines(WordLists(order0, lists0), i, lines)
    {
      order, lists := order0, lists0;
      for j := 0 to |lines|
        invariant WordLists(order, lists) == AddLines(WordLists(order0, lists0), i, lines[..j])
      {
        assert lines[..j + 1][..j] == lines[..j];
        var word := Strip(lines[j]);
        if word in lists {
          lists := lists[word := lists[word] + [i]];
        } else {
          order, lists := order + [word], lists[word := [i]];
        }
      }
      assert lines[..|lines|] == lines;
    }
  }
}
