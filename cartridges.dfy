/**
 * Cartridge kinds, the add/remove priority comparator of the embed job, and the
 * sort the job applies to its add and remove lists.
 *
 * A cartridge is any type with equality. How the client library decides that a
 * cartridge is "the latest version of mysql" (or postgresql, or mongodb) is not
 * modelled: the three selectors are arbitrary predicates.
 */
module Cartridges {

  /** The three selectors `LatestVersionOf.mySQL()`, `postgreSQL()` and `mongoDB()`. */
  datatype Selectors<!C> = Selectors(mySql: C -> bool, postgreSql: C -> bool, mongoDb: C -> bool)

  /**
   * `cartridge.equals(b)` where `b` is a `java.lang.Boolean`: a cartridge object is
   * never equal to an object of the unrelated class Boolean.
   */
  function EqualsBoolean<C>(cartridge: C, b: bool): bool
  {
    false
  }

  /**
   * Position of a cartridge in the postgresql, mongodb, everything-else chain that
   * the comparator falls through to once mysql has been dealt with.
   */
  function ChainRank<C>(sel: Selectors<C>, c: C): nat
  {
    if sel.postgreSql(c) then 0 else if sel.mongoDb(c) then 1 else 2
  }

  /** A cartridge that none of the three selectors matches. */
  predicate Plain<C>(sel: Selectors<C>, c: C)
  {
    !sel.mySql(c) && !sel.postgreSql(c) && !sel.mongoDb(c)
  }

  /**
   * The priority comparator, as written. Its first test compares a cartridge with
   * a Boolean and never holds, so a mysql cartridge on the left is never ranked
   * first; a mysql cartridge on the right always wins. Without mysql on the right
   * the result follows the postgresql-before-mongodb-before-rest chain, where the
   * left side wins every tie between two distinguished cartridges.
   */
  function Compare<C>(sel: Selectors<C>, x: C, y: C): (r: int)
    ensures r == -1 || r == 0 || r == 1
    ensures sel.mySql(y) ==> r == 1
    ensures !sel.mySql(y) ==> (r == -1 <==> ChainRank(sel, x) < 2 && ChainRank(sel, x) <= ChainRank(sel, y))
    ensures !sel.mySql(y) ==> (r == 1 <==> ChainRank(sel, y) < ChainRank(sel, x))
  {
    if EqualsBoolean(x, sel.mySql(x)) then -1
    else if sel.mySql(y) then 1
    else if sel.postgreSql(x) then -1
    else if sel.postgreSql(y) then 1
    else if sel.mongoDb(x) then -1
    else if sel.mongoDb(y) then 1
    else 0
  }

  /** The mysql-first branch is dead: only a postgresql or mongodb cartridge is ever ranked first. */
  lemma CompareNeverRanksMySqlFirst<C>(sel: Selectors<C>, x: C, y: C)
    ensures Compare(sel, x, y) == -1 ==> !sel.mySql(y) && (sel.postgreSql(x) || sel.mongoDb(x))
    ensures Compare(sel, x, y) == 0 <==> !sel.mySql(y) && !sel.postgreSql(x) && !sel.mongoDb(x) && Plain(sel, y)
  {
  }

  /**
   * The comparator breaks the contract of java.util.Comparator: a mysql cartridge
   * and a plain one compare as equal one way round and as ordered the other way,
   * and a mysql cartridge compares as greater than itself.
   */
  lemma CompareNotAntisymmetric<C>(sel: Selectors<C>, m: C, p: C)
    requires sel.mySql(m) && !sel.postgreSql(m) && !sel.mongoDb(m) && Plain(sel, p)
    ensures Compare(sel, m, p) == 0 && Compare(sel, p, m) == 1
    ensures Compare(sel, m, m) == 1
  {
  }

  /** Two postgresql (or two mongodb) cartridges each compare as smaller than the other. */
  lemma CompareSameKindBothSmaller<C>(sel: Selectors<C>, x: C, y: C)
    requires !sel.mySql(x) && !sel.mySql(y)
    requires (sel.postgreSql(x) && sel.postgreSql(y)) || (sel.mongoDb(x) && sel.mongoDb(y) && !sel.postgreSql(x) && !sel.postgreSql(y))
    ensures Compare(sel, x, y) == -1 && Compare(sel, y, x) == -1
  {
  }

  /**
   * Insert `x` at the end of `sorted`, moving it left past every element it
   * compares as smaller than (a stable insertion step).
   */
  function Insert<C>(sel: Selectors<C>, x: C, sorted: seq<C>): (r: seq<C>)
    ensures multiset(r) == multiset(sorted) + multiset{x}
    ensures |r| == |sorted| + 1
    decreases |sorted|
  {
    if sorted == [] then [x]
    else
      var last := sorted[|sorted| - 1];
      if Compare(sel, x, last) < 0 then
        assert sorted == sorted[..|sorted| - 1] + [last];
        Insert(sel, x, sorted[..|sorted| - 1]) + [last]
      else sorted + [x]
  }

  /**
   * `Collections.sort(list, new CartridgeAddRemovePriorityComparator())`, modelled
   * as a stable insertion sort that consults the same comparator. Because the
   * comparator is not a total preorder, no sortedness is promised: the result is a
   * permutation of the input.
   */
  function PrioritySort<C>(sel: Selectors<C>, s: seq<C>): (r: seq<C>)
    ensures multiset(r) == multiset(s)
    ensures |r| == |s|
    decreases |s|
  {
    if s == [] then []
    else
      assert s == s[..|s| - 1] + [s[|s| - 1]];
      Insert(sel, s[|s| - 1], PrioritySort(sel, s[..|s| - 1]))
  }

  /** Every element of the sorted list comes from the input, and every input element is kept. */
  lemma PrioritySortSameElements<C>(sel: Selectors<C>, s: seq<C>)
    ensures forall c :: c in PrioritySort(sel, s) <==> c in s
  {
    var r := PrioritySort(sel, s);
    forall c
      ensures c in r <==> c in s
    {
      assert c in r <==> multiset(r)[c] > 0;
      assert c in s <==> multiset(s)[c] > 0;
    }
  }

  /**
   * When no element matches postgresql or mongodb the comparator never answers -1,
   * so the sort leaves the list as it is, mysql included: a mysql cartridge listed
   * after phpmyadmin stays after it. (A TimSort over such a list finds one
   * ascending run and leaves it as it is too.)
   */
  lemma {:induction false} PrioritySortKeepsOrderWithoutPostgreSqlOrMongoDb<C>(sel: Selectors<C>, s: seq<C>)
    requires forall c :: c in s ==> !sel.postgreSql(c) && !sel.mongoDb(c)
    ensures PrioritySort(sel, s) == s
  {
    if s != [] {
      var init, last := s[..|s| - 1], s[|s| - 1];
      assert s == init + [last];
      assert last in s;
      forall c | c in init
        ensures !sel.postgreSql(c) && !sel.mongoDb(c)
      {
        assert c in s;
      }
      PrioritySortKeepsOrderWithoutPostgreSqlOrMongoDb(sel, init);
      assert PrioritySort(sel, s) == Insert(sel, last, init);
      if init != [] {
        assert ChainRank(sel, last) == 2;
        assert Compare(sel, last, init[|init| - 1]) != -1;
      }
    }
  }

  /** Four sample cartridge kinds, for examples. */
  datatype Sample = MySql | PostgreSql | MongoDb | PhpMyAdmin

  /** Selectors that recognise the sample kinds. */
  function SampleSelectors(): Selectors<Sample>
  {
    Selectors(c => c == MySql, c => c == PostgreSql, c => c == MongoDb)
  }

  /**
   * phpmyadmin needs mysql, and the comparator was meant to put mysql first; but
   * a selection listing phpmyadmin before mysql is sorted as it stands. (This
   * follows TimSort, which asks whether a later element is smaller than an
   * earlier one; a sort asking whether the earlier one is greater would swap
   * them, since `Compare(phpmyadmin, mysql)` is 1.)
   */
  lemma MySqlStaysAfterPhpMyAdmin()
    ensures PrioritySort(SampleSelectors(), [PhpMyAdmin, MySql]) == [PhpMyAdmin, MySql]
  {
    PrioritySortKeepsOrderWithoutPostgreSqlOrMongoDb(SampleSelectors(), [PhpMyAdmin, MySql]);
  }

  /** A postgresql cartridge, by contrast, is moved in front of the others. */
  lemma PostgreSqlMovesFirst()
    ensures PrioritySort(SampleSelectors(), [PhpMyAdmin, PostgreSql]) == [PostgreSql, PhpMyAdmin]
  {
    var sel := SampleSelectors();
    assert PrioritySort(sel, [PhpMyAdmin]) == [PhpMyAdmin];
    assert Compare(sel, PostgreSql, PhpMyAdmin) == -1;
  }
}
