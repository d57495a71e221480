/**
 * The document tree the loader builds: positions, scalar styles and the three
 * node kinds.  A mapping is an insertion-ordered list of (key, value) pairs,
 * standing for the `LinkedHashMap<ScalarNode, Node>` of the program.
 */
module Model {
  import YamlRust

  datatype ScalarStyle = Plain | SingleQuoted | DoubleQuoted | Literal | Folded

  /** Source position of a node: byte index, line and column. */
  datatype Pos = Pos(index: nat, line: nat, col: nat)

  datatype ScalarNode = ScalarNode(value: string, pos: Pos, scalarStyle: ScalarStyle)

  /** The entries of a mapping, oldest first. */
  type Entries = seq<(ScalarNode, Node)>

  datatype MapNode = MapNode(value: Entries, pos: Pos)
  {
    /** Does some key of this mapping have the text `key`?  Position and style of the keys play no part. */
    function ContainsKey(key: string): (b: bool)
      ensures b <==> exists i :: 0 <= i < |value| && value[i].0.value == key
      ensures value == [] ==> !b
    {
      HasKeyText(value, key)
    }
  }

  datatype SequenceNode = SequenceNode(value: seq<Node>, pos: Pos)

  datatype Node = Scalar(scalar: ScalarNode) | Map(mapping: MapNode) | Sequence(sequence: SequenceNode)

  /** The style of a scalar as reported by the scanner, with every unrecognised style read as plain. */
  function StyleFrom(style: YamlRust.TScalarStyle): (r: ScalarStyle)
    ensures r == Plain <==> style == YamlRust.Any || style == YamlRust.Plain
  {
    match style
    case SingleQuoted => SingleQuoted
    case DoubleQuoted => DoubleQuoted
    case Literal => Literal
    case Foled => Folded
    case _ => Plain
  }

  /** The four named scanner styles keep their names; the scanner's `Foled` is our `Folded`. */
  lemma StyleFromKeepsNamedStyles()
    ensures StyleFrom(YamlRust.SingleQuoted) == SingleQuoted
    ensures StyleFrom(YamlRust.DoubleQuoted) == DoubleQuoted
    ensures StyleFrom(YamlRust.Literal) == Literal
    ensures StyleFrom(YamlRust.Foled) == Folded
  {
  }

  /** The scanner style each of our styles comes from; `StyleFrom` undoes it. */
  function ScannerStyle(style: ScalarStyle): (t: YamlRust.TScalarStyle)
    ensures StyleFrom(t) == style
    ensures t != YamlRust.Any
  {
    match style
    case Plain => YamlRust.Plain
    case SingleQuoted => YamlRust.SingleQuoted
    case DoubleQuoted => YamlRust.DoubleQuoted
    case Literal => YamlRust.Literal
    case Folded => YamlRust.Foled
  }

  /** The position recorded for a scanner marker. */
  function PosFrom(m: YamlRust.Marker): (p: Pos)
    ensures p.index == m.index && p.line == m.line && p.col == m.col
  {
    Pos(m.index, m.line, m.col)
  }

  /** Two markers give the same position exactly when they are the same marker. */
  lemma PosFromInjective(a: YamlRust.Marker, b: YamlRust.Marker)
    ensures PosFrom(a) == PosFrom(b) <==> a == b
  {
  }

  /** Linear search of the entries for a key whose text is `key`. */
  function HasKeyText(m: Entries, key: string): (b: bool)
    ensures b <==> exists i :: 0 <= i < |m| && m[i].0.value == key
  {
    if m == [] then false
    else m[0].0.value == key || HasKeyText(m[1..], key)
  }

  /** No two entries of `m` have keys with the same text. */
  predicate UniqueKeys(m: Entries)
  {
    forall i, j :: 0 <= i < j < |m| ==> m[i].0.value != m[j].0.value
  }

  /** Every mapping anywhere in the tree `n` has keys with pairwise distinct texts. */
  predicate WellFormed(n: Node)
  {
    match n
    case Scalar(_) => true
    case Sequence(s) => forall i :: 0 <= i < |s.value| ==> WellFormed(s.value[i])
    case Map(m) => UniqueKeys(m.value) && forall i :: 0 <= i < |m.value| ==> WellFormed(m.value[i].1)
  }

  /** The entries of a mapping under construction: what `WellFormed` asks of a finished mapping. */
  predicate MapWellFormed(m: Entries)
  {
    UniqueKeys(m) && forall i :: 0 <= i < |m| ==> WellFormed(m[i].1)
  }

  /** Appending an entry whose key text is new keeps the key texts distinct and finds the new key. */
  lemma {:induction false} AppendKeepsKeysUnique(m: Entries, k: ScalarNode, v: Node)
    requires UniqueKeys(m) && !HasKeyText(m, k.value)
    ensures UniqueKeys(m + [(k, v)])
    ensures HasKeyText(m + [(k, v)], k.value)
    ensures forall key :: HasKeyText(m + [(k, v)], key) <==> HasKeyText(m, key) || key == k.value
  {
    var r := m + [(k, v)];
    assert r[|m|].0.value == k.value;
    forall i, j | 0 <= i < j < |r| ensures r[i].0.value != r[j].0.value {
      if j == |m| {
        assert r[i] == m[i];
      } else {
        assert r[i] == m[i] && r[j] == m[j];
      }
    }
    forall key ensures HasKeyText(r, key) <==> HasKeyText(m, key) || key == k.value {
      if HasKeyText(m, key) {
        var i :| 0 <= i < |m| && m[i].0.value == key;
        assert r[i] == m[i];
      }
    }
  }

  /**
   * Key lookup sees only the text of the keys: replacing the position and the
   * style of any key changes the answer to no query.
   */
  lemma {:induction false} ContainsKeyIgnoresPosAndStyle(n: MapNode, i: nat, pos: Pos, style: ScalarStyle, key: string)
    requires i < |n.value|
    ensures n.ContainsKey(n.value[i].0.value)
    ensures MapNode(n.value[i := (ScalarNode(n.value[i].0.value, pos, style), n.value[i].1)], n.pos).ContainsKey(key)
            == n.ContainsKey(key)
  {
    var m := n.value;
    var m' := m[i := (ScalarNode(m[i].0.value, pos, style), m[i].1)];
    assert forall j :: 0 <= j < |m| ==> m'[j].0.value == m[j].0.value;
  }
}
