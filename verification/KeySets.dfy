/** The keys of the snapshot, and the range queries the dump asks about them. */
module KeySets {

  function Range(keys: set<int>, lo: int, hi: int): set<int> {
    set k | k in keys && lo <= k <= hi
  }

  lemma Pick(keys: set<int>) returns (x: int)
    requires keys != {}
    ensures x in keys
  {
    assert (forall k :: k !in keys) ==> keys == {};
    x :| x in keys;
  }

  lemma {:induction false} HasLeast(keys: set<int>)
    requires keys != {}
    ensures exists k :: k in keys && forall j :: j in keys ==> k <= j
    decreases |keys|
  {
    var x := Pick(keys);
    if keys - {x} == {} {
      assert forall j :: j in keys ==> j == x by {
        assert forall j :: j in keys && j != x ==> j in keys - {x};
      }
    } else {
      HasLeast(keys - {x});
      var y :| y in keys - {x} && forall j :: j in keys - {x} ==> y <= j;
      var z := if x <= y then x else y;
      assert forall j :: j in keys ==> j == x || j in keys - {x};
      assert z in keys && forall j :: j in keys ==> z <= j;
    }
  }

  lemma {:induction false} HasGreatest(keys: set<int>)
    requires keys != {}
    ensures exists k :: k in keys && forall j :: j in keys ==> j <= k
    decreases |keys|
  {
    var x := Pick(keys);
    if keys - {x} == {} {
      assert forall j :: j in keys ==> j == x by {
        assert forall j :: j in keys && j != x ==> j in keys - {x};
      }
    } else {
      HasGreatest(keys - {x});
      var y :| y in keys - {x} && forall j :: j in keys - {x} ==> j <= y;
      var z := if x <= y then y else x;
      assert forall j :: j in keys ==> j == x || j in keys - {x};
      assert z in keys && forall j :: j in keys ==> j <= z;
    }
  }

  /** `ORDER BY field ASC LIMIT 1` */
  function Least(keys: set<int>): (k: int)
    requires keys != {}
    ensures k in keys && forall j :: j in keys ==> k <= j
  {
    HasLeast(keys);
    var k :| k in keys && forall j :: j in keys ==> k <= j;
    k
  }

  /** `ORDER BY field DESC LIMIT 1` */
  function Greatest(keys: set<int>): (k: int)
    requires keys != {}
    ensures k in keys && forall j :: j in keys ==> j <= k
  {
    HasGreatest(keys);
    var k :| k in keys && forall j :: j in keys ==> j <= k;
    k
  }
}
