/**
 * The dashboard's folder grid (app/components/Dashboard.tsx): the search
 * filter, the header count, the empty state, the type labels and icons,
 * and what each card's callbacks pass upward.
 */
module DashboardView {
  import opened Wrappers
  import opened Text
  import FolderSheet

  /** `FolderData`; `folderType` is whatever string the data holds. */
  datatype FolderData = FolderData(id: string, name: string, folderType: string, itemCount: int, securityLevel: string)

  /** `f.name.toLowerCase().includes(searchQuery.toLowerCase())`. */
  predicate Matches(f: FolderData, query: string) {
    Includes(ToLower(f.name), ToLower(query))
  }

  /** `filtered`: the matching folders, in their original order. */
  function Filtered(folders: seq<FolderData>, query: string): seq<FolderData> {
    if folders == [] then []
    else (if Matches(folders[0], query) then [folders[0]] else []) + Filtered(folders[1..], query)
  }

  /** `filtered` holds exactly the matching folders, each as often as it occurs. */
  lemma {:induction false} FilteredExact(folders: seq<FolderData>, query: string)
    ensures var r := Filtered(folders, query);
      && (forall x :: multiset(r)[x] == if Matches(x, query) then multiset(folders)[x] else 0)
      && (forall x :: x in r <==> x in folders && Matches(x, query))
  {
    if folders != [] {
      FilteredExact(folders[1..], query);
      assert folders == [folders[0]] + folders[1..];
    }
  }

  /** Filtering keeps the relative order: filtering a concatenation concatenates the filtered parts. */
  lemma {:induction false} FilteredKeepsOrder(a: seq<FolderData>, b: seq<FolderData>, query: string)
    ensures Filtered(a + b, query) == Filtered(a, query) + Filtered(b, query)
  {
    if a != [] {
      var c := a + b;
      assert c != [] && c[0] == a[0] && c[1..] == a[1..] + b;
      FilteredKeepsOrder(a[1..], b, query);
    } else {
      assert a + b == b;
    }
  }

  /** Every name contains the empty string, so an empty query shows every folder. */
  lemma {:induction false} EmptyQueryKeepsAll(folders: seq<FolderData>)
    ensures Filtered(folders, "") == folders
  {
    if folders != [] {
      EmptyQueryKeepsAll(folders[1..]);
      assert OccursAt(ToLower(folders[0].name), ToLower(""), 0);
    }
  }

  /**
   * The search ignores the case of ASCII and Latin-1 letters on both sides:
   * a name and a query that lowercase alike match alike, and lowercasing
   * either beforehand changes nothing.
   */
  lemma MatchIgnoresCase(f: FolderData, query: string, name': string, query': string)
    ensures ToLower(name') == ToLower(f.name) && ToLower(query') == ToLower(query) ==>
      (Matches(f, query) <==> Matches(f.(name := name'), query'))
    ensures Matches(f, query) <==> Matches(f.(name := ToLower(f.name)), ToLower(query))
  {
    LowerIdempotent(f.name);
    LowerIdempotent(query);
  }

  lemma LowerIdempotent(s: string)
    ensures ToLower(ToLower(s)) == ToLower(s)
  {
  }

  /** The "(n)" after "Mis Carpetas": the total number of folders, only when there are any. */
  function HeaderCount(folders: seq<FolderData>): (r: Option<nat>)
    ensures r.Some? <==> |folders| > 0
    ensures r.Some? ==> r.value == |folders|
  {
    if |folders| > 0 then Some(|folders|) else None
  }

  /** The empty-state message and the hint under it. */
  datatype EmptyState = EmptyState(message: string, hint: Option<string>)

  /** The empty state shown instead of the grid, if any. */
  function EmptyStateOf(folders: seq<FolderData>, query: string): (r: Option<EmptyState>)
    ensures r.Some? <==> Filtered(folders, query) == []
  {
    if |Filtered(folders, query)| == 0 then
      if query != "" then Some(EmptyState("No se encontraron carpetas", None))
      else Some(EmptyState("Aún no tienes carpetas", Some("Toca el botón + para crear una")))
    else None
  }

  /**
   * With an empty query the empty state appears exactly when there are no
   * folders, and then with the hint; with a query it is the "not found"
   * message, without a hint.
   */
  lemma EmptyStateCases(folders: seq<FolderData>, query: string)
    ensures query == "" ==>
      (EmptyStateOf(folders, query).Some? <==> folders == [])
      && (folders == [] ==> EmptyStateOf(folders, query) == Some(EmptyState("Aún no tienes carpetas", Some("Toca el botón + para crear una"))))
    ensures query != "" && EmptyStateOf(folders, query).Some? ==>
      EmptyStateOf(folders, query).value == EmptyState("No se encontraron carpetas", None)
    ensures query != "" ==> (EmptyStateOf(folders, query).Some? <==> forall x :: x in folders ==> !Matches(x, query))
  {
    FilteredExact(folders, query);
    if query == "" {
      EmptyQueryKeepsAll(folders);
    }
  }

  /**
   * The names a plain object literal inherits from `Object.prototype`. A
   * lookup of one of them in a map object finds the inherited member (a
   * function, or the prototype object itself for `__proto__`), so `??`
   * does not fall back.
   */
  const InheritedKeys: set<string> := {
    "constructor", "__proto__", "toString", "toLocaleString", "valueOf", "hasOwnProperty",
    "isPrototypeOf", "propertyIsEnumerable", "__defineGetter__", "__defineSetter__",
    "__lookupGetter__", "__lookupSetter__"
  }

  /**
   * `typeLabelMap[folder.folderType] ?? 'Archivos'`. `None` is an inherited
   * member in place of a string: a function or an object, which React
   * refuses to render as the card's label.
   */
  function TypeLabel(folderType: string): Option<string> {
    if folderType in InheritedKeys then None
    else
      Some(match folderType
        case "documentos" => "Documentos"
        case "hojas" => "Hojas"
        case "media" => "Archivos"
        case "notas" => "Notas"
        case "claves" => "Claves"
        case "diario" => "Entradas"
        case "privado" => "Archivos"
        case _ => "Archivos")
  }

  /**
   * The label is "Archivos" exactly for media, privado and every string
   * that is neither in the map nor inherited; an inherited name gives no
   * string label at all.
   */
  lemma ArchivosLabel(folderType: string)
    ensures TypeLabel(folderType) == Some("Archivos") <==>
      folderType != "documentos" && folderType != "hojas" && folderType != "notas"
      && folderType != "claves" && folderType != "diario" && folderType !in InheritedKeys
    ensures TypeLabel(folderType).None? <==> folderType in InheritedKeys
  {
    assert "documentos" !in InheritedKeys && "hojas" !in InheritedKeys && "notas" !in InheritedKeys;
    assert "claves" !in InheritedKeys && "diario" !in InheritedKeys;
  }

  datatype Icon = FileText | FileSpreadsheet | ImageIcon | Mic | Key | BookOpen | EyeOff | FolderIcon

  /**
   * `typeIconMap[folder.folderType] ?? { icon: Folder, iconColor: 'bg-blue-500' }`.
   * `None`: the lookup found an inherited member, and destructuring it gives
   * an undefined icon and colour.
   */
  function TypeIcon(folderType: string): Option<(Icon, string)> {
    if folderType in InheritedKeys then None
    else
      Some(match folderType
        case "documentos" => (FileText, "bg-blue-500")
        case "hojas" => (FileSpreadsheet, "bg-green-500")
        case "media" => (ImageIcon, "bg-orange-500")
        case "notas" => (Mic, "bg-purple-500")
        case "claves" => (Key, "bg-yellow-500")
        case "diario" => (BookOpen, "bg-pink-500")
        case "privado" => (EyeOff, "bg-red-500")
        case _ => (FolderIcon, "bg-blue-500"))
  }

  /** No id of a type the new-folder sheet offers is an inherited name. */
  lemma SheetTypesNotInherited(t: FolderSheet.FolderType)
    ensures FolderSheet.TypeId(t) !in InheritedKeys
  {
    match t
    case Documentos => assert FolderSheet.TypeId(t) == "documentos";
    case Hojas => assert FolderSheet.TypeId(t) == "hojas";
    case Media => assert FolderSheet.TypeId(t) == "media";
    case Notas => assert FolderSheet.TypeId(t) == "notas";
    case Claves => assert FolderSheet.TypeId(t) == "claves";
    case Diario => assert FolderSheet.TypeId(t) == "diario";
    case Privado => assert FolderSheet.TypeId(t) == "privado";
  }

  /**
   * Every type the new-folder sheet offers has its own icon, and distinct
   * types get distinct icons; a string neither in the map nor inherited
   * gets the folder icon, and an inherited name gets no icon.
   */
  lemma SheetTypesHaveOwnIcons(t: FolderSheet.FolderType, u: FolderSheet.FolderType, other: string)
    ensures TypeIcon(FolderSheet.TypeId(t)).Some? && TypeIcon(FolderSheet.TypeId(t)).value.0 != FolderIcon
    ensures TypeIcon(FolderSheet.TypeId(t)) == TypeIcon(FolderSheet.TypeId(u)) <==> t == u
    ensures (forall s: FolderSheet.FolderType :: FolderSheet.TypeId(s) != other) && other !in InheritedKeys ==>
      TypeIcon(other) == Some((FolderIcon, "bg-blue-500"))
    ensures other in InheritedKeys ==> TypeIcon(other).None?
  {
    SheetTypesNotInherited(t);
    SheetTypesNotInherited(u);
    if forall s: FolderSheet.FolderType :: FolderSheet.TypeId(s) != other {
      assert FolderSheet.TypeId(FolderSheet.Documentos) != other;
      assert FolderSheet.TypeId(FolderSheet.Hojas) != other;
      assert FolderSheet.TypeId(FolderSheet.Media) != other;
      assert FolderSheet.TypeId(FolderSheet.Notas) != other;
      assert FolderSheet.TypeId(FolderSheet.Claves) != other;
      assert FolderSheet.TypeId(FolderSheet.Diario) != other;
      assert FolderSheet.TypeId(FolderSheet.Privado) != other;
    }
  }

  /** The card's buttons. */
  datatype CardAction = OpenCard | Hide | Archive | Delete

  /** What a card's callback passes to the dashboard's props. */
  datatype Callback =
    | FolderClick(folderName: string, folderId: string, securityLevel: string)
    | StatusChange(folderId: string, status: string)

  function CardCallback(folder: FolderData, action: CardAction): Callback {
    match action
    case OpenCard => FolderClick(folder.name, folder.id, folder.securityLevel)
    case Hide => StatusChange(folder.id, "hidden")
    case Archive => StatusChange(folder.id, "archived")
    case Delete => StatusChange(folder.id, "deleted")
  }

  /**
   * Each card acts on its own folder: a click passes that folder's name,
   * id and level; the three menu actions pass its id and three distinct
   * statuses, none of them 'active'.
   */
  lemma CardActsOnOwnFolder(folder: FolderData, a: CardAction, b: CardAction)
    ensures CardCallback(folder, a).folderId == folder.id
    ensures a == OpenCard <==> CardCallback(folder, a).FolderClick?
    ensures a == OpenCard ==> CardCallback(folder, a) == FolderClick(folder.name, folder.id, folder.securityLevel)
    ensures a != OpenCard ==> CardCallback(folder, a).status in {"hidden", "archived", "deleted"}
    ensures CardCallback(folder, a) == CardCallback(folder, b) <==> a == b
  {
  }
}
