/** How host names are cut: at their last colon, and into labels at their dots. */
module HostNames {
  import opened Basics

  // ── The last colon ──────────────────────────────────────────────────────────

  /** `rsplit_once(':')`: the text before and after the last colon. */
  function RSplit(s: string): Option<(string, string)> {
    if s == [] then None
    else if s[|s| - 1] == ':' then Some((s[..|s| - 1], []))
    else match RSplit(s[..|s| - 1])
      case None => None
      case Some((h, p)) => Some((h, p + [s[|s| - 1]]))
  }

  lemma {:induction false} RSplitAt(h: string, p: string)
    requires ':' !in p
    ensures RSplit(h + [':'] + p) == Some((h, p))
  {
    var s := h + [':'] + p;
    if p != [] {
      var q := p[..|p| - 1];
      RSplitAt(h, q);
      assert s[..|s| - 1] == h + [':'] + q;
      assert p == q + [p[|p| - 1]];
    } else {
      assert s[..|s| - 1] == h;
    }
  }

  lemma {:induction false} NoColon(s: string)
    requires ':' !in s
    ensures RSplit(s) == None
  {
    if s != [] { NoColon(s[..|s| - 1]); }
  }

  // ── Labels ──────────────────────────────────────────────────────────────────

  /** One more character in front of a name with these labels. */
  function Grow(c: char, labels: seq<string>): (r: seq<string>)
    requires labels != []
    ensures r != []
  {
    if c == '.' then [""] + labels else [[c] + labels[0]] + labels[1..]
  }

  /** A name cut at its dots. */
  function Labels(name: string): (r: seq<string>)
    ensures r != []
  {
    if name == [] then [""] else Grow(name[0], Labels(name[1..]))
  }

  function Join(labels: seq<string>): string
    requires labels != []
  {
    if |labels| == 1 then labels[0] else labels[0] + "." + Join(labels[1..])
  }

  lemma {:induction false} JoinLabels(name: string)
    ensures Join(Labels(name)) == name
  {
    if name != [] {
      JoinLabels(name[1..]);
      assert name == [name[0]] + name[1..];
      JoinGrow(Labels(name[1..]), name[0]);
    }
  }

  lemma JoinGrow(labels: seq<string>, c: char)
    requires labels != []
    ensures Join(Grow(c, labels)) == [c] + Join(labels)
  {
    var longer := Grow(c, labels);
    if c == '.' {
      assert longer[1..] == labels;
    } else {
      assert longer[1..] == labels[1..];
      if |labels| > 1 {
        assert [c] + labels[0] + "." + Join(labels[1..]) == [c] + (labels[0] + "." + Join(labels[1..]));
      }
    }
  }

  lemma LabelsCons(c: char, name: string)
    ensures Labels([c] + name) == Grow(c, Labels(name))
  {
    assert ([c] + name)[1..] == name;
  }

  lemma GrowConcat(c: char, x: seq<string>, y: seq<string>)
    requires x != []
    ensures Grow(c, x + y) == Grow(c, x) + y
  {
    assert (x + y)[1..] == x[1..] + y;
  }

  lemma {:induction false} LabelsConcat(front: string, back: string)
    ensures Labels(front + "." + back) == Labels(front) + Labels(back)
  {
    if front == [] {
      assert front + "." + back == ['.'] + back;
      LabelsCons('.', back);
    } else {
      var c, rest := front[0], front[1..];
      LabelsConcat(rest, back);
      assert front + "." + back == [c] + (rest + "." + back) && front == [c] + rest;
      LabelsCons(c, rest + "." + back);
      LabelsCons(c, rest);
      GrowConcat(c, Labels(rest), Labels(back));
    }
  }

  lemma {:induction false} JoinConcat(x: seq<string>, y: seq<string>)
    requires x != [] && y != []
    ensures Join(x + y) == Join(x) + "." + Join(y)
  {
    if |x| == 1 {
      assert (x + y)[1..] == y;
    } else {
      assert (x + y)[1..] == x[1..] + y;
      JoinConcat(x[1..], y);
      assert x[0] + "." + (Join(x[1..]) + "." + Join(y)) == (x[0] + "." + Join(x[1..])) + "." + Join(y);
    }
  }

  predicate EndsWith<T(==)>(s: seq<T>, suffix: seq<T>) {
    |suffix| <= |s| && s[|s| - |suffix|..] == suffix
  }

  /** `name` is a proper subdomain of `base`. */
  predicate Below(name: string, base: string) {
    EndsWith(Labels(name), Labels(base)) && |Labels(name)| > |Labels(base)|
  }

  lemma BelowMeans(name: string, base: string)
    ensures Below(name, base) <==> EndsWith(name, "." + base)
  {
    var all, tail := Labels(name), Labels(base);
    if EndsWith(name, "." + base) {
      var front := name[..|name| - |"." + base|];
      assert name == front + "." + base;
      LabelsConcat(front, base);
      assert all[|all| - |tail|..] == tail;
    }
    if Below(name, base) {
      var head := all[..|all| - |tail|];
      assert all == head + tail;
      JoinConcat(head, tail);
      JoinLabels(name);
      JoinLabels(base);
      assert name == Join(head) + "." + base;
      assert name[|name| - |"." + base|..] == "." + base;
    }
  }

  lemma SameLabels(x: string, y: string)
    ensures Labels(x) == Labels(y) <==> x == y
  {
    JoinLabels(x);
    JoinLabels(y);
  }

  /** A name without dots is one label. */
  lemma {:induction false} NoDot(name: string)
    requires '.' !in name
    ensures Labels(name) == [name]
  {
    if name != [] {
      NoDot(name[1..]);
      assert name == [name[0]] + name[1..];
    }
  }
}
