/**
 * The list command's paging: how many pages a list has, which page is shown
 * when the requested one is past the end, which items that page prints, and
 * the orders the player, audio and region lists are sorted in. The page
 * arithmetic is Java int arithmetic and is written out as such.
 */
module ListCommands {
  import opened Wrappers
  import opened JavaInts
  import opened JavaStrings
  import opened Messages

  const PlayerItemsPerPage: int := 10
  const AudioItemsPerPage: int := 10
  const RegionItemsPerPage: int := 8

  /** list.length / itemsPerPage, plus one for a partly filled last page. */
  function MaxPage(n: nat, itemsPerPage: int): int
    requires itemsPerPage > 0
  {
    n / itemsPerPage + (if n % itemsPerPage > 0 then 1 else 0)
  }

  /** maxPage is the ceiling of n / itemsPerPage: the fewest pages that hold n items. */
  lemma MaxPageIsCeiling(n: nat, itemsPerPage: int)
    requires itemsPerPage > 0
    ensures var m := MaxPage(n, itemsPerPage);
      m >= 0 && n <= m * itemsPerPage < n + itemsPerPage
    ensures MaxPage(n, itemsPerPage) == 0 <==> n == 0
  {
    var q, r := n / itemsPerPage, n % itemsPerPage;
    assert n == q * itemsPerPage + r;
    if r > 0 {
      assert (q + 1) * itemsPerPage == q * itemsPerPage + itemsPerPage;
    }
  }

  /**
   * The page shown for a requested page: maxPage when pageNum * itemsPerPage
   * exceeds list.length + itemsPerPage - 1, both sides computed in int.
   */
  function ShownPage(pageNum: int, n: nat, itemsPerPage: int): int
    requires itemsPerPage > 0
  {
    if Int32(pageNum * itemsPerPage) > Int32(n + (itemsPerPage - 1)) then MaxPage(n, itemsPerPage) else pageNum
  }

  lemma MulMonotone(a: int, b: int, k: int)
    requires a <= b && k > 0
    ensures a * k <= b * k
  {
  }

  /**
   * While the products fit in an int, the requested page is replaced by
   * maxPage exactly when it lies past the last page.
   */
  lemma ShownPageClampsPastLast(pageNum: int, n: nat, itemsPerPage: int)
    requires itemsPerPage > 0 && IsInt32(pageNum * itemsPerPage) && n + itemsPerPage - 1 <= IntMax
    ensures ShownPage(pageNum, n, itemsPerPage)
      == if pageNum > MaxPage(n, itemsPerPage) then MaxPage(n, itemsPerPage) else pageNum
  {
    var m := MaxPage(n, itemsPerPage);
    MaxPageIsCeiling(n, itemsPerPage);
    if pageNum > m {
      MulMonotone(m + 1, pageNum, itemsPerPage);
      assert (m + 1) * itemsPerPage == m * itemsPerPage + itemsPerPage;
    } else {
      MulMonotone(pageNum, m, itemsPerPage);
    }
  }

  /** First index the loop prints: (pageNum - 1) * itemsPerPage in int, from 0 up. */
  function WindowStart(pageNum: int, n: nat, itemsPerPage: int): int
  {
    var lo := Int32((pageNum - 1) * itemsPerPage);
    var end := WindowEnd(pageNum, n, itemsPerPage);
    if lo < 0 then 0 else if lo > end then end else lo
  }

  /** Where the loop stops: list.length or pageNum * itemsPerPage in int, whichever comes first. */
  function WindowEnd(pageNum: int, n: nat, itemsPerPage: int): int
  {
    var hi := Int32(pageNum * itemsPerPage);
    if hi < 0 then 0 else if hi > n then n else hi
  }

  lemma WindowBounds(pageNum: int, n: nat, itemsPerPage: int)
    ensures 0 <= WindowStart(pageNum, n, itemsPerPage) <= WindowEnd(pageNum, n, itemsPerPage) <= n
  {
  }

  /**
   * For a page from 1 to maxPage whose products fit in an int, the loop
   * prints the items with index in [(pageNum - 1) * itemsPerPage,
   * min(n, pageNum * itemsPerPage)): at least one and at most a page full.
   */
  lemma PageWindow(pageNum: int, n: nat, itemsPerPage: int)
    requires itemsPerPage > 0 && 1 <= pageNum <= MaxPage(n, itemsPerPage) && pageNum * itemsPerPage <= IntMax
    ensures WindowStart(pageNum, n, itemsPerPage) == (pageNum - 1) * itemsPerPage
    ensures WindowEnd(pageNum, n, itemsPerPage) == if pageNum * itemsPerPage < n then pageNum * itemsPerPage else n
    ensures 0 < WindowEnd(pageNum, n, itemsPerPage) - WindowStart(pageNum, n, itemsPerPage) <= itemsPerPage
  {
    MaxPageIsCeiling(n, itemsPerPage);
    var m := MaxPage(n, itemsPerPage);
    MulMonotone(1, pageNum, itemsPerPage);
    MulMonotone(pageNum, m, itemsPerPage);
    assert (pageNum - 1) * itemsPerPage == pageNum * itemsPerPage - itemsPerPage;
    MulMonotone(0, pageNum - 1, itemsPerPage);
  }

  /** The items of page pageNum, in list order. */
  function PageItems<T>(items: seq<T>, pageNum: int, itemsPerPage: int): seq<T>
  {
    WindowBounds(pageNum, |items|, itemsPerPage);
    items[WindowStart(pageNum, |items|, itemsPerPage)..WindowEnd(pageNum, |items|, itemsPerPage)]
  }

  /** The items of pages 1 to k, one page after the other. */
  function PagesUpTo<T>(items: seq<T>, k: nat, itemsPerPage: int): seq<T>
  {
    if k == 0 then [] else PagesUpTo(items, k - 1, itemsPerPage) + PageItems(items, k, itemsPerPage)
  }

  /**
   * Paging loses and repeats nothing: pages 1 to maxPage, read in order,
   * are the whole list.
   */
  lemma {:induction false} PagesCoverList<T>(items: seq<T>, itemsPerPage: int)
    requires itemsPerPage > 0 && MaxPage(|items|, itemsPerPage) * itemsPerPage <= IntMax
    ensures PagesUpTo(items, MaxPage(|items|, itemsPerPage), itemsPerPage) == items
  {
    var m := MaxPage(|items|, itemsPerPage);
    MaxPageIsCeiling(|items|, itemsPerPage);
    PagesUpToPrefix(items, m, itemsPerPage);
    if m > 0 {
      PageWindow(m, |items|, itemsPerPage);
    }
  }

  /** Pages 1 to k are the list up to where page k ends. */
  lemma {:induction false} PagesUpToPrefix<T>(items: seq<T>, k: nat, itemsPerPage: int)
    requires itemsPerPage > 0 && k <= MaxPage(|items|, itemsPerPage) && MaxPage(|items|, itemsPerPage) * itemsPerPage <= IntMax
    ensures PagesUpTo(items, k, itemsPerPage) == items[..WindowEnd(k, |items|, itemsPerPage)]
  {
    if k > 0 {
      PagesUpToPrefix(items, k - 1, itemsPerPage);
      AdjacentPages(k, |items|, itemsPerPage);
      var b := WindowEnd(k - 1, |items|, itemsPerPage);
      var e := WindowEnd(k, |items|, itemsPerPage);
      assert items[..b] + items[b..e] == items[..e];
    }
  }

  /** Page k starts where page k - 1 ends. */
  lemma AdjacentPages(k: int, n: nat, itemsPerPage: int)
    requires itemsPerPage > 0 && 1 <= k <= MaxPage(n, itemsPerPage) && MaxPage(n, itemsPerPage) * itemsPerPage <= IntMax
    ensures WindowStart(k, n, itemsPerPage) == WindowEnd(k - 1, n, itemsPerPage) <= WindowEnd(k, n, itemsPerPage)
  {
    MulMonotone(k, MaxPage(n, itemsPerPage), itemsPerPage);
    PageWindow(k, n, itemsPerPage);
    MaxPageIsCeiling(n, itemsPerPage);
    MulMonotone(0, k - 1, itemsPerPage);
  }

  /**
   * A huge page number wraps: page 214748365 of a five-item list is not
   * clamped, because 214748365 * 10 is negative as an int, and nothing is
   * printed although the list has a page.
   */
  lemma WrappedPageShowsNothing()
    ensures MaxPage(5, 10) == 1
    ensures ShownPage(214748365, 5, 10) == 214748365
    ensures WindowStart(214748365, 5, 10) == WindowEnd(214748365, 5, 10) == 0
  {
  }

  /**
   * What one list message shows: the page, the "[pg. page/maxPage]" label
   * when the list has more than a page's worth, whether "* NONE *" stands in
   * place of the header, the printed items, and the Previous/Next buttons
   * with whether each is clickable, when they are sent.
   */
  datatype Listing<T> = Listing(page: int, pageLabel: Option<PageLabel>, none: bool, items: seq<T>, buttons: Option<Buttons>)

  datatype PageLabel = PageLabel(page: int, maxPage: int)

  datatype Buttons = Buttons(previous: bool, next: bool)

  /**
   * ListMessenger.sendListMessage (and the older listPlayers/listAudio): the
   * page is clamped, the label and the empty marker chosen, the items of the
   * page printed by walking the list, and for a player on a Spigot server
   * the page buttons added when there is another page either way.
   */
  method SendListMessage<T>(items: seq<T>, itemsPerPage: int, requested: int, spigotPlayer: bool)
    returns (listing: Listing<T>)
    requires itemsPerPage > 0 && |items| <= IntMax
    ensures listing.page == ShownPage(requested, |items|, itemsPerPage)
    ensures listing.pageLabel.Some? <==> |items| > itemsPerPage
    ensures listing.pageLabel.Some? ==> listing.pageLabel.value == PageLabel(listing.page, MaxPage(|items|, itemsPerPage))
    ensures listing.none <==> |items| == 0
    ensures listing.items == PageItems(items, listing.page, itemsPerPage)
    ensures listing.buttons.Some? <==>
      spigotPlayer && (listing.page > 1 || listing.page < MaxPage(|items|, itemsPerPage))
    ensures listing.buttons.Some? ==>
      listing.buttons.value == Buttons(listing.page > 1, listing.page < MaxPage(|items|, itemsPerPage))
  {
    var n := |items|;
    var maxPage := n / itemsPerPage + (if n % itemsPerPage > 0 then 1 else 0);
    var pageNum := requested;
    if Int32(pageNum * itemsPerPage) > Int32(n + (itemsPerPage - 1)) {
      pageNum := maxPage;
    }
    var pageLabel := if n > itemsPerPage then Some(PageLabel(pageNum, maxPage)) else None;
    var none := n == 0;
    assert pageNum == ShownPage(requested, n, itemsPerPage);
    var printed := PrintWindow(items, Int32((pageNum - 1) * itemsPerPage), Int32(pageNum * itemsPerPage));
    assert printed == PageItems(items, pageNum, itemsPerPage);
    var buttons := None;
    if spigotPlayer && (pageNum > 1 || pageNum < maxPage) {
      buttons := Some(Buttons(pageNum > 1, pageNum < maxPage));
    }
    listing := Listing(pageNum, pageLabel, none, printed, buttons);
  }

  /**
   * The printing loop of sendListMessage: walk the list up to index hi,
   * printing from index lo on; it prints the slice between the two, each
   * cut to the list.
   */
  method PrintWindow<T>(items: seq<T>, lo: int, hi: int) returns (printed: seq<T>)
    ensures var end := if hi < 0 then 0 else if hi > |items| then |items| else hi;
      var start := if lo < 0 then 0 else if lo > end then end else lo;
      printed == items[start..end]
  {
    ghost var end := if hi < 0 then 0 else if hi > |items| then |items| else hi;
    ghost var start := if lo < 0 then 0 else if lo > end then end else lo;
    printed := [];
    var i := 0;
    while i < |items| && i < hi
      invariant 0 <= i <= end
      invariant i <= start ==> printed == []
      invariant i > start ==> printed == items[start..i]
    {
      if i >= lo {
        assert start <= i;
        assert items[start..i + 1] == items[start..i] + [items[i]];
        printed := printed + [items[i]];
      } else {
        assert i < start;
      }
      i := i + 1;
    }
    assert end == i || end == start;
  }

  /**
   * After the clamp, for a request whose products fit in an int, Next is
   * clickable exactly on the pages before the last and Previous on every
   * page after the first.
   */
  lemma ButtonsAfterClamp(requested: int, n: nat, itemsPerPage: int)
    requires itemsPerPage > 0 && IsInt32(requested * itemsPerPage) && n + itemsPerPage - 1 <= IntMax
    requires requested >= 1
    ensures var p := ShownPage(requested, n, itemsPerPage);
      p <= MaxPage(n, itemsPerPage) || n == 0
    ensures var p := ShownPage(requested, n, itemsPerPage);
      n > 0 ==> (p < MaxPage(n, itemsPerPage) <==> requested < MaxPage(n, itemsPerPage))
  {
    ShownPageClampsPastLast(requested, n, itemsPerPage);
    MaxPageIsCeiling(n, itemsPerPage);
  }

  // ---- the orders the lists are sorted in ----

  /** A listed player: the name Bukkit knows, if any, and the unique id. */
  datatype PlayerEntry = PlayerEntry(name: Option<string>, id: Uuid)

  /** UUID.compareTo: the signed most significant halves, then the signed least significant halves. */
  function CompareUuid(a: Uuid, b: Uuid): int
  {
    if a.mostSigBits < b.mostSigBits then -1
    else if a.mostSigBits > b.mostSigBits then 1
    else if a.leastSigBits < b.leastSigBits then -1
    else if a.leastSigBits > b.leastSigBits then 1
    else 0
  }

  /** Players alphabetically by name, players with a known name first, the others by id. */
  function ComparePlayers(a: PlayerEntry, b: PlayerEntry): int
  {
    if a.name.Some? && b.name.Some? then CompareTo(a.name.value, b.name.value)
    else if a.name.None? && b.name.None? then CompareUuid(a.id, b.id)
    else if a.name.None? then 1
    else -1
  }

  function Sign(x: int): int { if x < 0 then -1 else if x > 0 then 1 else 0 }

  /**
   * The player order meets Comparator's contract, as Arrays.sort needs:
   * swapping the arguments flips the sign, "before" is transitive, and two
   * entries tie exactly when they have the same name, or no name and the
   * same id.
   */
  lemma PlayerOrderIsComparator(a: PlayerEntry, b: PlayerEntry, c: PlayerEntry)
    ensures Sign(ComparePlayers(b, a)) == -Sign(ComparePlayers(a, b))
    ensures ComparePlayers(a, b) < 0 && ComparePlayers(b, c) < 0 ==> ComparePlayers(a, c) < 0
    ensures ComparePlayers(a, b) == 0 <==> a.name == b.name && (a.name.Some? || a.id == b.id)
    ensures a.name.Some? && b.name.None? ==> ComparePlayers(a, b) < 0
  {
    if a.name.Some? && b.name.Some? {
      CompareToAntisymmetric(a.name.value, b.name.value);
    }
    if ComparePlayers(a, b) < 0 && ComparePlayers(b, c) < 0 && a.name.Some? && b.name.Some? && c.name.Some? {
      CompareToTransitive(a.name.value, b.name.value, c.name.value);
    }
  }

  predicate SortedBy<T>(list: seq<T>, cmp: (T, T) -> int)
  {
    forall i, j :: 0 <= i < j < |list| ==> cmp(list[i], list[j]) <= 0
  }

  /** In the sorted player list every player with a name comes before every player without one. */
  lemma NamedPlayersFirst(list: seq<PlayerEntry>)
    requires SortedBy(list, ComparePlayers)
    ensures forall i, j :: 0 <= i < j < |list| && list[i].name.None? ==> list[j].name.None?
  {
  }

  /** A listed region: its world's name, its id, and whether it carries the audio flag. */
  datatype RegionEntry = RegionEntry(world: string, id: string, hasAudio: bool)

  /** Regions by world name, then by region id. */
  function CompareRegions(a: RegionEntry, b: RegionEntry): int
  {
    var worldDiff := CompareTo(a.world, b.world);
    if worldDiff != 0 then worldDiff else CompareTo(a.id, b.id)
  }

  lemma RegionOrderIsComparator(a: RegionEntry, b: RegionEntry, c: RegionEntry)
    ensures CompareRegions(b, a) == -CompareRegions(a, b)
    ensures CompareRegions(a, b) < 0 && CompareRegions(b, c) < 0 ==> CompareRegions(a, c) < 0
    ensures CompareRegions(a, b) == 0 <==> a.world == b.world && a.id == b.id
  {
    CompareToAntisymmetric(a.world, b.world);
    CompareToAntisymmetric(a.id, b.id);
    if CompareRegions(a, b) < 0 && CompareRegions(b, c) < 0 {
      if a.world != b.world && b.world != c.world {
        CompareToTransitive(a.world, b.world, c.world);
      } else if a.world == b.world && b.world == c.world {
        CompareToTransitive(a.id, b.id, c.id);
      }
    }
  }

  /** Only the regions whose flags hold the audio flag are listed. */
  function AudioRegions(regions: seq<RegionEntry>): (r: seq<RegionEntry>)
    ensures forall x :: x in r <==> x in regions && x.hasAudio
    ensures |r| <= |regions|
  {
    if regions == [] then []
    else (if regions[0].hasAudio then [regions[0]] else []) + AudioRegions(regions[1..])
  }

  // ---- execute ----

  datatype ListKind = Players | Audio | Regions

  datatype ListError = NotConnected | UnknownSubCommand

  function ItemsPerPage(kind: ListKind): int
  {
    match kind
    case Players => PlayerItemsPerPage
    case Audio => AudioItemsPerPage
    case Regions => RegionItemsPerPage
  }

  /**
   * ListCommand.execute: an error and nothing listed while the client is
   * not connected; otherwise the list of the sub-command, at the given page
   * or page 1 when none was given.
   */
  function Execute(connected: bool, kind: ListKind, page: Option<int>): (r: Result<(ListKind, int), ListError>)
    ensures r.Err? <==> !connected
    ensures r.Ok? ==> r.value.0 == kind && (page.None? ==> r.value.1 == 1) && (page.Some? ==> r.value.1 == page.value)
  {
    if !connected then Err(NotConnected) else Ok((kind, page.GetOr(1)))
  }

  /** The older ListCommand.execute: sub-command 0 lists players, 1 lists audio ids, ten per page. */
  function LegacyExecute(connected: bool, subCmdIndex: int, page: Option<int>): (r: Result<(ListKind, int), ListError>)
    ensures !connected ==> r == Err(NotConnected)
    ensures connected ==> (r.Ok? <==> subCmdIndex == 0 || subCmdIndex == 1)
    ensures r.Ok? ==> ItemsPerPage(r.value.0) == 10 && r.value.1 == page.GetOr(1)
  {
    if !connected then Err(NotConnected)
    else if subCmdIndex == 0 then Ok((Players, page.GetOr(1)))
    else if subCmdIndex == 1 then Ok((Audio, page.GetOr(1)))
    else Err(UnknownSubCommand)
  }
}
