/**
 * `IndexLabelClassifier` (python/smqtk/algorithms/classifier/index_label.py):
 * a list of labels, one per line of a file, applied position by position
 * to a vector of confidence values. The file is given as the lines its
 * reader yields; vector entries are of an arbitrary type `V`, since the
 * classifier never computes with them.
 */
module IndexLabel {
  import opened Text

  datatype IndexLabelClassifier = IndexLabelClassifier(indexToLabelUri: string, labelVector: seq<string>)

  const ConfigKey: string := "index_to_label_uri"

  /** The constructor: keeps the URI and strips every line of the label file, in order. */
  function New(indexToLabelUri: string, lines: seq<string>): (c: IndexLabelClassifier)
    ensures c.indexToLabelUri == indexToLabelUri
    ensures |c.labelVector| == |lines|
    ensures forall i :: 0 <= i < |lines| ==> IsStripOf(c.labelVector[i], lines[i])
  {
    IndexLabelClassifier(indexToLabelUri, seq(|lines|, i requires 0 <= i < |lines| => Strip(lines[i])))
  }

  /** The configuration: the label file's URI under its constructor argument name, and nothing else. */
  function GetConfig(c: IndexLabelClassifier): (config: map<string, string>)
    ensures config.Keys == {ConfigKey}
    ensures config[ConfigKey] == c.indexToLabelUri
  {
    map[ConfigKey := c.indexToLabelUri]
  }

  /** The labels, in file order. */
  function GetLabels(c: IndexLabelClassifier): seq<string>
  {
    c.labelVector
  }

  /** Building a classifier from its own configuration, over the same label file, gives the same classifier. */
  lemma ConfigRoundTrip(indexToLabelUri: string, lines: seq<string>)
    ensures var c := New(indexToLabelUri, lines);
      New(GetConfig(c)[ConfigKey], lines) == c
  {
  }

  /** The labels handed out are the label file's lines, stripped, one per line and in order. */
  lemma LabelsAreStrippedLines(indexToLabelUri: string, lines: seq<string>)
    ensures var labels := GetLabels(New(indexToLabelUri, lines));
      && |labels| == |lines|
      && forall i :: 0 <= i < |lines| ==> labels[i] == Strip(lines[i])
  {
    var labels := GetLabels(New(indexToLabelUri, lines));
    forall i | 0 <= i < |lines|
      ensures labels[i] == Strip(lines[i])
    {
      StripCharacterized(lines[i], labels[i]);
    }
  }

  /** A label read from a file never contains a line feed: stripping removes the one a line ends with. */
  lemma {:induction false} LabelsHaveNoLineFeed(indexToLabelUri: string, content: string)
    ensures var labels := GetLabels(New(indexToLabelUri, Lines(content)));
      forall k, i :: 0 <= k < |labels| && 0 <= i < |labels[k]| ==> labels[k][i] != '\n'
  {
    var lines := Lines(content);
    forall k | 0 <= k < |lines|
      ensures forall i :: 0 <= i < |Strip(lines[k])| ==> Strip(lines[k])[i] != '\n'
    {
      StrippedLineHasNoLineFeed(lines[k]);
    }
  }

  lemma StrippedLineHasNoLineFeed(line: string)
    requires forall i :: 0 <= i < |line| - 1 ==> line[i] != '\n'
    ensures forall t :: 0 <= t < |Strip(line)| ==> Strip(line)[t] != '\n'
  {
    var r := Strip(line);
    var i, j :| 0 <= i <= j <= |line| && r == line[i..j]
      && AllSpace(line[..i]) && AllSpace(line[j..])
      && (r == [] || (!IsSpace(r[0]) && !IsSpace(r[|r| - 1])));
    forall t | 0 <= t < |r|
      ensures r[t] != '\n'
    {
      assert r[t] == line[i + t];
      if i + t == |line| - 1 {
        assert t == |r| - 1;
      }
    }
  }

  // ---------------------------------------------------------------------
  // dict(zip(labels, vector))

  /** Python's `zip` of two sequences: pairs by position, as many as the shorter has. */
  function Zip<A, B>(a: seq<A>, b: seq<B>): (z: seq<(A, B)>)
    ensures |z| == Min(|a|, |b|)
    ensures forall i :: 0 <= i < |z| ==> z[i] == (a[i], b[i])
  {
    if a == [] || b == [] then [] else [(a[0], b[0])] + Zip(a[1..], b[1..])
  }

  /** Python's `dict(pairs)`: the pairs are entered in order, a later pair overwriting an earlier one with the same key. */
  function DictOf<K, V>(pairs: seq<(K, V)>): (m: map<K, V>)
    ensures m.Keys == set i | 0 <= i < |pairs| :: pairs[i].0
    decreases |pairs|
  {
    if pairs == [] then map[]
    else
      var front := pairs[..|pairs| - 1];
      var last := pairs[|pairs| - 1];
      assert (set i | 0 <= i < |pairs| :: pairs[i].0) == (set i | 0 <= i < |front| :: front[i].0) + {last.0} by {
        forall i | 0 <= i < |front| ensures front[i] == pairs[i] { }
      }
      DictOf(front)[last.0 := last.1]
  }

  /** Position `i` holds the last pair with its key. */
  predicate IsLastOccurrence<K(==), V>(pairs: seq<(K, V)>, i: int)
  {
    0 <= i < |pairs| && forall j :: i < j < |pairs| ==> pairs[j].0 != pairs[i].0
  }

  /** Each key keeps the value of its last pair. */
  lemma {:induction false} DictOfLastWins<K, V>(pairs: seq<(K, V)>)
    ensures forall i :: IsLastOccurrence(pairs, i) ==> DictOf(pairs)[pairs[i].0] == pairs[i].1
    decreases |pairs|
  {
    if pairs != [] {
      var front := pairs[..|pairs| - 1];
      DictOfLastWins(front);
      forall i | IsLastOccurrence(pairs, i)
        ensures DictOf(pairs)[pairs[i].0] == pairs[i].1
      {
        if i < |pairs| - 1 {
          assert front[i] == pairs[i];
          assert IsLastOccurrence(front, i);
        }
      }
    }
  }

  predicate DistinctKeys<K(==), V>(pairs: seq<(K, V)>)
  {
    forall i, j :: 0 <= i < j < |pairs| ==> pairs[i].0 != pairs[j].0
  }

  /** With no key repeated, nothing is overwritten: the dictionary has one entry per pair. */
  lemma {:induction false} DictOfDistinctSize<K, V>(pairs: seq<(K, V)>)
    requires DistinctKeys(pairs)
    ensures |DictOf(pairs)| == |pairs|
    decreases |pairs|
  {
    if pairs != [] {
      var front := pairs[..|pairs| - 1];
      var last := pairs[|pairs| - 1];
      assert DistinctKeys(front) by {
        forall i, j | 0 <= i < j < |front| ensures front[i].0 != front[j].0 {
          assert front[i] == pairs[i] && front[j] == pairs[j];
        }
      }
      DictOfDistinctSize(front);
      assert last.0 !in DictOf(front) by {
        forall i | 0 <= i < |front| ensures front[i].0 != last.0 {
          assert front[i] == pairs[i];
        }
      }
    }
  }

  /**
   * `_classify`: `dict(zip(label_vector, vector))`. Only the first
   * `min(|labels|, |vector|)` labels become keys, and a repeated label takes
   * the value at its last position among them.
   */
  function Classify<V>(c: IndexLabelClassifier, vector: seq<V>): (r: map<string, V>)
    ensures var n := Min(|c.labelVector|, |vector|);
      && r.Keys == (set i | 0 <= i < n :: c.labelVector[i])
      && forall i :: 0 <= i < n && (forall j :: i < j < n ==> c.labelVector[j] != c.labelVector[i])
                     ==> r[c.labelVector[i]] == vector[i]
  {
    var pairs := Zip(c.labelVector, vector);
    DictOfLastWins(pairs);
    assert forall i :: 0 <= i < |pairs| ==> pairs[i].0 == c.labelVector[i];
    DictOf(pairs)
  }

  /** With distinct labels every zipped label maps to the value at its own position, and there are exactly that many keys. */
  lemma ClassifyDistinct<V>(c: IndexLabelClassifier, vector: seq<V>)
    requires forall i, j :: 0 <= i < j < |c.labelVector| ==> c.labelVector[i] != c.labelVector[j]
    ensures var n := Min(|c.labelVector|, |vector|);
      var r := Classify(c, vector);
      && |r| == n
      && forall i :: 0 <= i < n ==> c.labelVector[i] in r && r[c.labelVector[i]] == vector[i]
  {
    var pairs := Zip(c.labelVector, vector);
    DictOfDistinctSize(pairs);
  }
}
