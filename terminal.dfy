/** The terminal `click.echo` writes to, shared by autodocai/config.py and
    autodocai/cli.py: one line per call. */
module Terminal {

  class Console {
    var lines: seq<string>

    constructor ()
      ensures lines == []
    {
      lines := [];
    }

    method Echo(line: string)
      modifies this
      ensures lines == old(lines) + [line]
    {
      lines := lines + [line];
    }
  }

  /** `f"{prefix}{item}"` for each item, in order. */
  function Bulleted(prefix: string, items: seq<string>): seq<string>
    decreases |items|
  {
    if items == [] then [] else Bulleted(prefix, items[..|items| - 1]) + [prefix + items[|items| - 1]]
  }

  /** One line per item, the k-th line being the k-th item after the prefix. */
  lemma {:induction false} BulletedAt(prefix: string, items: seq<string>)
    ensures |Bulleted(prefix, items)| == |items|
    ensures forall k :: 0 <= k < |items| ==> Bulleted(prefix, items)[k] == prefix + items[k]
    decreases |items|
  {
    if items != [] {
      var init := items[..|items| - 1];
      BulletedAt(prefix, init);
      forall k | 0 <= k < |items|
        ensures Bulleted(prefix, items)[k] == prefix + items[k]
      {
        if k < |init| {
          assert Bulleted(prefix, items)[k] == Bulleted(prefix, init)[k];
          assert init[k] == items[k];
        }
      }
    }
  }

  /** Every bulleted line starts as the prefix does. */
  lemma BulletedStart(prefix: string, items: seq<string>)
    requires prefix != []
    ensures forall k :: 0 <= k < |Bulleted(prefix, items)| ==>
      Bulleted(prefix, items)[k] != [] && Bulleted(prefix, items)[k][0] == prefix[0]
  {
    BulletedAt(prefix, items);
    forall k | 0 <= k < |Bulleted(prefix, items)|
      ensures Bulleted(prefix, items)[k] != [] && Bulleted(prefix, items)[k][0] == prefix[0]
    {
      assert Bulleted(prefix, items)[k] == prefix + items[k];
    }
  }

  /** Lines echoed in two steps read as one block. */
  lemma AppendedPair(before: seq<string>, a: seq<string>, b: seq<string>)
    ensures before + a + b == before + (a + b)
  {
  }

  /** Lines echoed in three steps read as one block. */
  lemma Appended(before: seq<string>, a: seq<string>, b: seq<string>, c: seq<string>)
    ensures before + a + b + c == before + (a + b + c)
  {
  }

  /** `for item in items: click.echo(f"{prefix}{item}")` */
  method EchoAll(console: Console, prefix: string, items: seq<string>)
    modifies console
    ensures console.lines == old(console.lines) + Bulleted(prefix, items)
  {
    for k := 0 to |items|
      invariant console.lines == old(console.lines) + Bulleted(prefix, items[..k])
    {
      assert items[..k + 1][..k] == items[..k];
      console.Echo(prefix + items[k]);
    }
    assert items[..|items|] == items;
  }
}
