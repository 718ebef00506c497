/**
 * The "new folder" bottom sheet (app/components/NewFolderSheet.tsx): a name
 * field, a choice among seven folder types, and a create button that hands
 * the trimmed name and the chosen type to the page.
 */
module FolderSheet {
  import opened Wrappers
  import opened Text

  datatype FolderType = Documentos | Hojas | Media | Notas | Claves | Diario | Privado

  /** The string each folder type is at run time. */
  function TypeId(t: FolderType): string {
    match t
    case Documentos => "documentos"
    case Hojas => "hojas"
    case Media => "media"
    case Notas => "notas"
    case Claves => "claves"
    case Diario => "diario"
    case Privado => "privado"
  }

  /** The string ids are pairwise distinct, so a string names at most one folder type. */
  lemma TypeIdInjective(t: FolderType, u: FolderType)
    ensures TypeId(t) == TypeId(u) <==> t == u
  {
  }

  /** One row of the type picker; icon and colours are presentation and not kept. */
  datatype FolderTypeOption = FolderTypeOption(id: FolderType, labelText: string, description: string)

  const FolderTypes: seq<FolderTypeOption> := [
    FolderTypeOption(Documentos, "Bóveda de Documentos", "PDF, Word, Contratos"),
    FolderTypeOption(Hojas, "Hojas de Cálculo", "Excel, CSV, Financieros"),
    FolderTypeOption(Media, "Media Segura", "Imágenes, Videos, Evidencias"),
    FolderTypeOption(Notas, "Notas y Grabaciones", "Apuntes rápidos, Ideas, Audios"),
    FolderTypeOption(Claves, "Contraseñas y Claves", "Accesos, Tokens, PINs"),
    FolderTypeOption(Diario, "Diario Personal", "Entradas privadas, Reflexiones"),
    FolderTypeOption(Privado, "Carpeta Privada", "Contenido sensible, Uso general")
  ]

  /** `options.find(t => t.id === id)`: the first option with that id, if any. */
  function Find(options: seq<FolderTypeOption>, id: FolderType): (r: Option<FolderTypeOption>)
    ensures r.None? <==> forall i :: 0 <= i < |options| ==> options[i].id != id
    ensures r.Some? ==>
      exists i :: 0 <= i < |options| && options[i] == r.value && forall j :: 0 <= j < i ==> options[j].id != id
    ensures r.Some? ==> r.value.id == id
  {
    if options == [] then None
    else if options[0].id == id then Some(options[0])
    else
      var r := Find(options[1..], id);
      assert forall i :: 1 <= i < |options| ==> options[i] == options[1..][i - 1];
      r
  }

  /** The picker lists each of the seven folder types exactly once. */
  lemma FolderTypesListEachOnce(t: FolderType)
    ensures |FolderTypes| == 7
    ensures exists i :: 0 <= i < |FolderTypes| && FolderTypes[i].id == t
    ensures forall i, j :: 0 <= i < j < |FolderTypes| ==> FolderTypes[i].id != FolderTypes[j].id
  {
    match t
    case Documentos => assert FolderTypes[0].id == t;
    case Hojas => assert FolderTypes[1].id == t;
    case Media => assert FolderTypes[2].id == t;
    case Notas => assert FolderTypes[3].id == t;
    case Claves => assert FolderTypes[4].id == t;
    case Diario => assert FolderTypes[5].id == t;
    case Privado => assert FolderTypes[6].id == t;
  }

  /** The `selected` lookup (the `!` assertion in the source) never fails, whatever type is chosen. */
  lemma {:induction false} SelectedLookupSucceeds(t: FolderType)
    ensures Find(FolderTypes, t).Some? && Find(FolderTypes, t).value.id == t
  {
    FolderTypesListEachOnce(t);
  }

  /** The create button is enabled exactly when the trimmed name is not empty. */
  predicate CreateEnabled(folderName: string) {
    Trim(folderName) != ""
  }

  /** What `onCreate` receives: the folder name and the chosen type. */
  datatype Creation = Creation(folderName: string, folderType: FolderType)

  /** The name the sheet hands to `onCreate` is never blank and carries no surrounding whitespace. */
  lemma CreatedNameIsTrimmed(folderName: string)
    requires CreateEnabled(folderName)
    ensures var n := Trim(folderName);
      n != [] && !IsWhitespace(n[0]) && !IsWhitespace(n[|n| - 1]) && Trim(n) == n
  {
    TrimIdempotent(folderName);
  }

  class NewFolderSheet {
    var folderName: string
    var selectedType: FolderType

    /** Empty name, first type selected. */
    constructor ()
      ensures folderName == "" && selectedType == Documentos
    {
      folderName := "";
      selectedType := Documentos;
    }

    /** Typing in the name field. */
    method SetFolderName(value: string)
      modifies this
      ensures folderName == value && selectedType == old(selectedType)
    {
      folderName := value;
    }

    /** Clicking one of the type rows. */
    method SelectType(t: FolderType)
      modifies this
      ensures selectedType == t && folderName == old(folderName)
    {
      selectedType := t;
    }

    /** The option row highlighted as selected. */
    function Selected(): (o: FolderTypeOption)
      reads this
      ensures o.id == selectedType && o in FolderTypes
    {
      SelectedLookupSucceeds(selectedType);
      Find(FolderTypes, selectedType).value
    }

    /**
     * `handleCreate`. A blank or whitespace-only name does nothing at all.
     * Otherwise `onCreate` receives the trimmed name and the chosen type, the
     * form goes back to its initial values and `onClose` is called.
     */
    method HandleCreate() returns (created: Option<Creation>, closes: bool)
      modifies this
      ensures !CreateEnabled(old(folderName)) ==>
        created == None && !closes
        && folderName == old(folderName) && selectedType == old(selectedType)
      ensures CreateEnabled(old(folderName)) ==>
        created == Some(Creation(Trim(old(folderName)), old(selectedType))) && closes
        && folderName == "" && selectedType == Documentos
    {
      var name := Trim(folderName);
      if name != "" {
        created := Some(Creation(name, selectedType));
        folderName := "";
        selectedType := Documentos;
        closes := true;
      } else {
        created := None;
        closes := false;
      }
    }
  }
}
