/**
 * The records the server-management API returns, and the lookup of a
 * package item by its category (`getItemOption` in main.go).
 */
module Domain {

  datatype Option<T> = None | Some(value: T)

  /** One IP subnet of a server: a CIDR block and its network type ("public", ...). */
  datatype IPSubnet = IPSubnet(block: string, networkType: string)

  /** A free-text key/value pair of a package, such as ("RAM", "16GB"). */
  datatype PackageItem = PackageItem(category: string, option: string)

  /** The provisioned configuration of a server. */
  datatype Package = Package(
    clientId: int,
    core: string,
    hostname: string,
    items: seq<PackageItem>,
    name: string,
    status: string)

  /** One server record of the list the API returns. */
  datatype Server = Server(
    serverId: string,
    facility: string,
    ipSubnets: seq<IPSubnet>,
    managementIp: string,
    pkg: Package)

  /** The basic-auth credentials given on the command line. */
  datatype Credentials = Credentials(username: string, password: string)

  /** What a lookup yields when no item has the requested category. */
  const NotAvailable: string := "N/A"

  /** Some item of `items` has exactly the category `category` (case-sensitive). */
  predicate HasCategory(items: seq<PackageItem>, category: string)
  {
    exists j :: 0 <= j < |items| && items[j].category == category
  }

  /** `j` is the smallest index whose item has category `category`. */
  ghost predicate IsFirstMatch(items: seq<PackageItem>, category: string, j: int)
  {
    && 0 <= j < |items|
    && items[j].category == category
    && forall k :: 0 <= k < j ==> items[k].category != category
  }

  /**
   * The option of the first item whose category equals `category`, or
   * "N/A" when there is none: the value `getItemOption` returns.
   */
  function ItemOption(items: seq<PackageItem>, category: string): (r: string)
    ensures !HasCategory(items, category) ==> r == NotAvailable
    ensures forall j :: IsFirstMatch(items, category, j) ==> r == items[j].option
  {
    if |items| == 0 then
      NotAvailable
    else if items[0].category == category then
      items[0].option
    else
      var r := ItemOption(items[1..], category);
      assert forall j :: IsFirstMatch(items, category, j) ==> IsFirstMatch(items[1..], category, j - 1);
      assert HasCategory(items[1..], category) ==> HasCategory(items, category) by {
        if HasCategory(items[1..], category) {
          var j :| 0 <= j < |items[1..]| && items[1..][j].category == category;
          assert items[j + 1].category == category;
        }
      }
      r
  }

  /** The scan of main.go: walk the items in order and return at the first match. */
  method GetItemOption(items: seq<PackageItem>, category: string) returns (r: string)
    ensures r == ItemOption(items, category)
  {
    var i := 0;
    while i < |items|
      invariant 0 <= i <= |items|
      invariant forall k :: 0 <= k < i ==> items[k].category != category
    {
      if items[i].category == category {
        assert IsFirstMatch(items, category, i);
        return items[i].option;
      }
      i := i + 1;
    }
    return NotAvailable;
  }

  /** Whenever some item has the category, there is a first one. */
  lemma {:induction false} FirstMatchExists(items: seq<PackageItem>, category: string)
    requires HasCategory(items, category)
    ensures exists j :: IsFirstMatch(items, category, j)
  {
    if items[0].category == category {
      assert IsFirstMatch(items, category, 0);
    } else {
      var j :| 0 <= j < |items| && items[j].category == category;
      assert items[1..][j - 1].category == category;
      FirstMatchExists(items[1..], category);
      var j' :| IsFirstMatch(items[1..], category, j');
      assert IsFirstMatch(items, category, j' + 1);
    }
  }

  /** The result is "N/A" or the option of an item carrying exactly that category. */
  lemma ItemOptionOrigin(items: seq<PackageItem>, category: string)
    ensures var r := ItemOption(items, category);
      || (!HasCategory(items, category) && r == NotAvailable)
      || (exists j :: IsFirstMatch(items, category, j) && r == items[j].option)
  {
    if HasCategory(items, category) {
      FirstMatchExists(items, category);
    }
  }

  /**
   * Items after the first match are irrelevant: appending any items, or
   * replacing everything after a prefix that already matches, leaves the
   * result unchanged.
   */
  lemma {:induction false} ItemOptionIgnoresSuffix(items: seq<PackageItem>, more: seq<PackageItem>, category: string)
    requires HasCategory(items, category)
    ensures ItemOption(items + more, category) == ItemOption(items, category)
  {
    if items[0].category != category {
      var j :| 0 <= j < |items| && items[j].category == category;
      assert items[1..][j - 1].category == category;
      assert (items + more)[1..] == items[1..] + more;
      ItemOptionIgnoresSuffix(items[1..], more, category);
    }
  }

  /** A prefix without a match is skipped: the lookup continues in what follows. */
  lemma {:induction false} ItemOptionSkipsUnmatched(items: seq<PackageItem>, more: seq<PackageItem>, category: string)
    requires !HasCategory(items, category)
    ensures ItemOption(items + more, category) == ItemOption(more, category)
  {
    if |items| == 0 {
      assert items + more == more;
    } else {
      assert items[0].category != category;
      assert (items + more)[1..] == items[1..] + more;
      ItemOptionSkipsUnmatched(items[1..], more, category);
    }
  }
}
