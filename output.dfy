/** The report printed after a successful run (cmd/root.go:228-234): a
    header, then the `up.sql` and `down.sql` of every migration, in the order
    they were created, written with forward slashes on every platform. */
module Output {
  import opened Types

  const Header := "Arquivos criados:"
  const Bullet := "  - "

  /** `filepath.ToSlash` of a joined path: the segments separated by "/". */
  function Render(p: Path): (r: string)
    ensures |p| == 1 ==> r == p[0]
    ensures |p| > 1 ==> r == p[0] + "/" + Render(p[1..])
  {
    if p == [] then "" else if |p| == 1 then p[0] else p[0] + "/" + Render(p[1..])
  }

  /** No segment of `p` holds a separator of its own. */
  predicate PlainSegments(p: Path)
  {
    forall k :: 0 <= k < |p| ==> '/' !in p[k]
  }

  /** The position of the first "/" of `s`, or `|s|` when there is none. */
  function FirstSlash(s: string): (i: nat)
    ensures i <= |s| && '/' !in s[..i]
    ensures i < |s| ==> s[i] == '/'
    ensures '/' !in s ==> i == |s|
  {
    if s == [] then 0
    else if s[0] == '/' then 0
    else
      var i := 1 + FirstSlash(s[1..]);
      assert s[..i] == [s[0]] + s[1..][..i - 1];
      i
  }

  /** Cutting a "/"-separated text into its segments. */
  function Split(s: string): (r: Path)
    ensures |r| >= 1
    decreases |s|
  {
    var i := FirstSlash(s);
    if i == |s| then [s] else [s[..i]] + Split(s[i + 1..])
  }

  /** A segment without "/" followed by a "/" is cut off as the first
      segment. */
  lemma SplitCons(head: string, tail: string)
    requires '/' !in head
    ensures Split(head + "/" + tail) == [head] + Split(tail)
  {
    var s := head + "/" + tail;
    assert s[..|head|] == head;
    assert s[|head|] == '/';
    assert FirstSlash(s) == |head|;
    assert s[|head| + 1..] == tail;
  }

  /** The printed path reads back as the same segments, as long as no
      segment holds a "/" of its own: the report is unambiguous. */
  lemma {:induction false} SplitRender(p: Path)
    requires |p| >= 1 && PlainSegments(p)
    ensures Split(Render(p)) == p
    decreases |p|
  {
    if |p| == 1 {
      assert '/' !in p[0];
    } else {
      assert PlainSegments(p[1..]) by {
        forall k | 0 <= k < |p[1..]| ensures '/' !in p[1..][k] {
          assert p[1..][k] == p[k + 1];
        }
      }
      SplitRender(p[1..]);
      assert '/' !in p[0];
      SplitCons(p[0], Render(p[1..]));
      assert p == [p[0]] + p[1..];
    }
  }

  /** The two report lines of one migration. */
  function Entry(r: MigrationResult): seq<string>
  {
    [Bullet + Render(r.upPath), Bullet + Render(r.downPath)]
  }

  /** `exibirResultados`: the header, then the lines of every result. */
  function Listing(rs: seq<MigrationResult>): seq<string>
    decreases |rs|
  {
    if rs == [] then [Header] else Listing(rs[..|rs| - 1]) + Entry(rs[|rs| - 1])
  }

  /** The report is the header followed by two lines per result, in the
      order of the results: its `up.sql`, then its `down.sql`. */
  lemma {:induction false} ListingLines(rs: seq<MigrationResult>)
    ensures |Listing(rs)| == 1 + 2 * |rs|
    ensures Listing(rs)[0] == Header
    ensures forall k :: 0 <= k < |rs| ==>
      Listing(rs)[1 + 2 * k] == Bullet + Render(rs[k].upPath) && Listing(rs)[2 + 2 * k] == Bullet + Render(rs[k].downPath)
    decreases |rs|
  {
    if rs != [] {
      var init, last := rs[..|rs| - 1], rs[|rs| - 1];
      ListingLines(init);
      var front := Listing(init);
      assert Listing(rs) == front + Entry(last);
      forall k | 0 <= k < |rs|
        ensures Listing(rs)[1 + 2 * k] == Bullet + Render(rs[k].upPath)
        ensures Listing(rs)[2 + 2 * k] == Bullet + Render(rs[k].downPath)
      {
        if k < |rs| - 1 {
          assert init[k] == rs[k];
          assert Listing(rs)[1 + 2 * k] == front[1 + 2 * k];
          assert Listing(rs)[2 + 2 * k] == front[2 + 2 * k];
        }
      }
    }
  }

  /** The report of a single migration: the header and its two files. */
  lemma ListingOne(r: MigrationResult)
    ensures Listing([r]) == [Header, Bullet + Render(r.upPath), Bullet + Render(r.downPath)]
  {
    assert [r][..0] == [];
  }

  /** What `fmt.Fprintln` puts on the stream for each line, one after the
      other. */
  function Joined(lines: seq<string>): string
    decreases |lines|
  {
    if lines == [] then "" else Joined(lines[..|lines| - 1]) + lines[|lines| - 1] + "\n"
  }

  /** The stream of two blocks of lines is the stream of the first followed
      by that of the second. */
  lemma {:induction false} JoinedAppend(a: seq<string>, b: seq<string>)
    ensures Joined(a + b) == Joined(a) + Joined(b)
    decreases |b|
  {
    if b == [] {
      assert a + b == a;
    } else {
      var init := b[..|b| - 1];
      assert (a + b)[..|a + b| - 1] == a + init;
      JoinedAppend(a, init);
    }
  }

  /** Two lines on the stream. */
  lemma JoinedTwo(a: string, b: string)
    ensures Joined([a, b]) == (a + "\n") + (b + "\n")
  {
    assert [a, b][..1] == [a];
    assert [a][..0] == [];
    assert Joined([a]) == a + "\n";
  }

  /** One more result adds its two lines to the stream. */
  lemma PrintStep(rs: seq<MigrationResult>, r: MigrationResult)
    ensures Joined(Listing(rs + [r]))
      == (Joined(Listing(rs)) + (Bullet + Render(r.upPath) + "\n")) + (Bullet + Render(r.downPath) + "\n")
  {
    assert (rs + [r])[..|rs|] == rs;
    var front := Listing(rs);
    assert Listing(rs + [r]) == front + Entry(r);
    JoinedAppend(front, Entry(r));
    JoinedTwo(Bullet + Render(r.upPath), Bullet + Render(r.downPath));
  }

  /** `exibirResultados` writing to its stream: the header, then one loop
      turn per result. */
  method Print(rs: seq<MigrationResult>) returns (out: string)
    ensures out == Joined(Listing(rs))
  {
    out := Header + "\n";
    assert Joined([Header]) == Joined([]) + Header + "\n";
    var i := 0;
    while i < |rs|
      invariant 0 <= i <= |rs|
      invariant out == Joined(Listing(rs[..i]))
      decreases |rs| - i
    {
      var r := rs[i];
      PrintStep(rs[..i], r);
      assert rs[..i] + [r] == rs[..i + 1];
      out := out + (Bullet + Render(r.upPath) + "\n");
      out := out + (Bullet + Render(r.downPath) + "\n");
      i := i + 1;
    }
    assert rs[..i] == rs;
  }
}
