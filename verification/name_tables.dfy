/**
 * Tables keyed by name, as the RTTI walkers build them: each address in turn is named and
 * inserted under its name, a later address replacing an earlier one with the same name.
 */
module NameTables {
  import opened Outcome

  /**
   * The table built by naming each address in turn and inserting name -> address (a later
   * address with the same name replaces an earlier one); the first failure to name stops it.
   */
  function NameTable(resolve: nat -> Result<string>, addrs: seq<nat>, acc: map<string, nat>): (r: Result<map<string, nat>>)
    decreases |addrs|
  {
    if |addrs| == 0 then Ok(acc)
    else match resolve(addrs[0])
      case Ok(name) => NameTable(resolve, addrs[1..], acc[name := addrs[0]])
      case Err(e) => Err(e)
      case Panic(s) => Panic(s)
  }

  /** One step of the table: the head's name is added, or its failure is the table's. */
  lemma NameTableCons(resolve: nat -> Result<string>, x: nat, rest: seq<nat>, acc: map<string, nat>)
    ensures resolve(x).Ok? ==> NameTable(resolve, [x] + rest, acc) == NameTable(resolve, rest, acc[resolve(x).value := x])
    ensures !resolve(x).Ok? ==> SameFailure(NameTable(resolve, [x] + rest, acc), resolve(x))
  {
    assert ([x] + rest)[0] == x;
    assert ([x] + rest)[1..] == rest;
  }

  /** The names of all addresses in `addrs` that resolve. */
  function NamesOf(resolve: nat -> Result<string>, addrs: seq<nat>): set<string>
  {
    set i | 0 <= i < |addrs| && resolve(addrs[i]).Ok? :: resolve(addrs[i]).value
  }

  /**
   * The table succeeds exactly when every address resolves; its keys are then the names found,
   * and (given an accumulator that already holds) every entry is an address with that name.
   */
  lemma {:induction false} NameTableEntries(resolve: nat -> Result<string>, addrs: seq<nat>, acc: map<string, nat>)
    requires forall k :: k in acc ==> resolve(acc[k]) == Ok(k)
    ensures NameTable(resolve, addrs, acc).Ok? <==> forall i :: 0 <= i < |addrs| ==> resolve(addrs[i]).Ok?
    ensures NameTable(resolve, addrs, acc).Ok? ==>
              NameTable(resolve, addrs, acc).value.Keys == acc.Keys + NamesOf(resolve, addrs)
    ensures NameTable(resolve, addrs, acc).Ok? ==>
              forall k :: k in NameTable(resolve, addrs, acc).value ==> resolve(NameTable(resolve, addrs, acc).value[k]) == Ok(k)
    decreases |addrs|
  {
    if |addrs| > 0 {
      var first := resolve(addrs[0]);
      var rest := addrs[1..];
      if first.Ok? {
        NameTableEntries(resolve, rest, acc[first.value := addrs[0]]);
        assert NamesOf(resolve, addrs) == {first.value} + NamesOf(resolve, rest) by {
          forall n | n in NamesOf(resolve, addrs) ensures n in {first.value} + NamesOf(resolve, rest) {
            var i :| 0 <= i < |addrs| && resolve(addrs[i]).Ok? && resolve(addrs[i]).value == n;
            if i > 0 { assert addrs[i] == rest[i - 1]; }
          }
          forall n | n in NamesOf(resolve, rest) ensures n in NamesOf(resolve, addrs) {
            var i :| 0 <= i < |rest| && resolve(rest[i]).Ok? && resolve(rest[i]).value == n;
            assert rest[i] == addrs[i + 1];
          }
        }
        if NameTable(resolve, addrs, acc).Ok? {
          forall i | 0 <= i < |addrs| ensures resolve(addrs[i]).Ok? {
            if i > 0 { assert addrs[i] == rest[i - 1]; }
          }
        } else {
          var j :| 0 <= j < |rest| && !resolve(rest[j]).Ok?;
          assert addrs[j + 1] == rest[j];
        }
      } else {
        assert !resolve(addrs[0]).Ok?;
      }
    }
  }

  /** An entry of the accumulator survives when no later address carries its name. */
  lemma {:induction false} NameTableKeeps(resolve: nat -> Result<string>, addrs: seq<nat>, acc: map<string, nat>, n: string)
    requires n in acc && NameTable(resolve, addrs, acc).Ok?
    requires forall j :: 0 <= j < |addrs| ==> resolve(addrs[j]) != Ok(n)
    ensures n in NameTable(resolve, addrs, acc).value && NameTable(resolve, addrs, acc).value[n] == acc[n]
    decreases |addrs|
  {
    if |addrs| > 0 {
      var first := resolve(addrs[0]);
      assert first.Ok? && first != Ok(n);
      forall j | 0 <= j < |addrs[1..]| ensures resolve(addrs[1..][j]) != Ok(n) {
        assert addrs[1..][j] == addrs[j + 1];
      }
      NameTableKeeps(resolve, addrs[1..], acc[first.value := addrs[0]], n);
    }
  }

  /** Of several addresses with the same name, the table keeps the last one. */
  lemma {:induction false} NameTableLastWins(resolve: nat -> Result<string>, addrs: seq<nat>, acc: map<string, nat>, i: nat)
    requires i < |addrs| && resolve(addrs[i]).Ok? && NameTable(resolve, addrs, acc).Ok?
    requires forall j :: i < j < |addrs| ==> resolve(addrs[j]) != resolve(addrs[i])
    ensures resolve(addrs[i]).value in NameTable(resolve, addrs, acc).value
    ensures NameTable(resolve, addrs, acc).value[resolve(addrs[i]).value] == addrs[i]
    decreases |addrs|
  {
    var first := resolve(addrs[0]);
    var rest := addrs[1..];
    assert first.Ok?;
    if i == 0 {
      forall j | 0 <= j < |rest| ensures resolve(rest[j]) != Ok(first.value) {
        assert rest[j] == addrs[j + 1];
      }
      NameTableKeeps(resolve, rest, acc[first.value := addrs[0]], first.value);
    } else {
      assert rest[i - 1] == addrs[i];
      forall j | i - 1 < j < |rest| ensures resolve(rest[j]) != resolve(rest[i - 1]) {
        assert rest[j] == addrs[j + 1];
      }
      NameTableLastWins(resolve, rest, acc[first.value := addrs[0]], i - 1);
    }
  }
}
