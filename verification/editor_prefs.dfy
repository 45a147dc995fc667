/**
 * Adventure Creator's editor-wide preferences
 * (Assets/AdventureCreator/Scripts/Managers/ACEditorPrefs.cs).
 *
 * The preferences live in one asset, Editor/ACEditorPrefs.asset under the
 * plugin's main folder. GetOrCreateSettings loads it, or creates the Editor
 * folder and a fresh asset holding every default; each getter reads one
 * setting from it and falls back to a fixed default when there is none. In
 * builds without editor preferences (an older editor, or a player build) the
 * getters never look for the asset.
 */
module EditorPrefs {
  import opened Wrappers

  datatype CSVFormat = Standard | Legacy

  /** The stored settings, without the four gizmo colours. */
  datatype Prefs = Prefs(
    hierarchyIconOffset: int,
    menuItemsBeforeScroll: int,
    csvFormat: CSVFormat,
    showHierarchyIcons: bool,
    editorLabelWidth: int,
    actionNodeWidth: int,
    disableInstaller: bool)

  const DefaultHierarchyIconOffset: int := 0
  const DefaultEditorLabelWidth: int := 0
  const DefaultActionNodeWidth: int := 300
  const DefaultShowHierarchyIcons: bool := true
  const DefaultCSVFormat: CSVFormat := Standard
  const DefaultMenuItemsBeforeScroll: int := 15
  const DefaultDisableInstaller: bool := false

  /** Bounds of the Action node width. */
  const MinActionNodeWidth: int := 200
  const MaxActionNodeWidth: int := 800

  /**
   * What a getter sees: either the build has no editor preferences at all,
   * or it has them and GetOrCreateSettings returned this (None for null).
   */
  datatype PrefsAccess = NoEditorPrefs | EditorPrefs(settings: Option<Prefs>)

  /** The values the field declarations give a newly created instance. */
  function FieldInitialisers(): Prefs
  {
    Prefs(0, 15, Standard, true, 0, 300, false)
  }

  /** Every setting at its default. */
  function DefaultPrefs(): Prefs
  {
    Prefs(DefaultHierarchyIconOffset, DefaultMenuItemsBeforeScroll, DefaultCSVFormat,
          DefaultShowHierarchyIcons, DefaultEditorLabelWidth, DefaultActionNodeWidth,
          DefaultDisableInstaller)
  }

  /** Unity's integer Mathf.Clamp. */
  function Clamp(value: int, min: int, max: int): (r: int)
    requires min <= max
    ensures min <= r <= max
    ensures min <= value <= max ==> r == value
    ensures value < min ==> r == min
    ensures value > max ==> r == max
  {
    if value < min then min else if value > max then max else value
  }

  function HierarchyIconOffset(access: PrefsAccess): (r: int)
    ensures access.EditorPrefs? && access.settings.Some? ==> r == access.settings.value.hierarchyIconOffset
    ensures access == EditorPrefs(None) ==> r == DefaultHierarchyIconOffset
    ensures access == NoEditorPrefs ==> r == DefaultHierarchyIconOffset
  {
    match access
    case EditorPrefs(Some(s)) => s.hierarchyIconOffset
    case EditorPrefs(None) => DefaultHierarchyIconOffset
    case NoEditorPrefs => DefaultHierarchyIconOffset
  }

  /** Without editor preferences this getter answers the hierarchy-offset default. */
  function EditorLabelWidth(access: PrefsAccess): (r: int)
    ensures access.EditorPrefs? && access.settings.Some? ==> r == access.settings.value.editorLabelWidth
    ensures access == EditorPrefs(None) ==> r == DefaultEditorLabelWidth
    ensures access == NoEditorPrefs ==> r == DefaultHierarchyIconOffset
  {
    match access
    case EditorPrefs(Some(s)) => s.editorLabelWidth
    case EditorPrefs(None) => DefaultEditorLabelWidth
    case NoEditorPrefs => DefaultHierarchyIconOffset
  }

  /**
   * The width of Action nodes: the stored width, or the default without one;
   * a width that is not positive gives the default, any other is clamped
   * into [200, 800].
   */
  function ActionNodeWidth(access: PrefsAccess): (r: int)
    ensures MinActionNodeWidth <= r <= MaxActionNodeWidth
    ensures StoredActionNodeWidth(access) <= 0 ==> r == DefaultActionNodeWidth
    ensures 0 < StoredActionNodeWidth(access) ==>
      r == Clamp(StoredActionNodeWidth(access), MinActionNodeWidth, MaxActionNodeWidth)
  {
    var value := StoredActionNodeWidth(access);
    if value <= 0 then DefaultActionNodeWidth
    else Clamp(value, MinActionNodeWidth, MaxActionNodeWidth)
  }

  /** The width ActionNodeWidth starts from before it is checked. */
  function StoredActionNodeWidth(access: PrefsAccess): (r: int)
    ensures access.EditorPrefs? && access.settings.Some? ==> r == access.settings.value.actionNodeWidth
    ensures access == NoEditorPrefs || access == EditorPrefs(None) ==> r == DefaultActionNodeWidth
  {
    if access.EditorPrefs? && access.settings.Some? then access.settings.value.actionNodeWidth
    else DefaultActionNodeWidth
  }

  function ShowHierarchyIcons(access: PrefsAccess): (r: bool)
    ensures access.EditorPrefs? && access.settings.Some? ==> r == access.settings.value.showHierarchyIcons
    ensures access == EditorPrefs(None) ==> r == DefaultShowHierarchyIcons
    ensures access == NoEditorPrefs ==> r == DefaultShowHierarchyIcons
  {
    match access
    case EditorPrefs(Some(s)) => s.showHierarchyIcons
    case EditorPrefs(None) => DefaultShowHierarchyIcons
    case NoEditorPrefs => DefaultShowHierarchyIcons
  }

  /** Without editor preferences CSV files use the legacy format, not the default. */
  function CSVFormatSetting(access: PrefsAccess): (r: CSVFormat)
    ensures access.EditorPrefs? && access.settings.Some? ==> r == access.settings.value.csvFormat
    ensures access == EditorPrefs(None) ==> r == DefaultCSVFormat
    ensures access == NoEditorPrefs ==> r == Legacy
  {
    match access
    case EditorPrefs(Some(s)) => s.csvFormat
    case EditorPrefs(None) => DefaultCSVFormat
    case NoEditorPrefs => Legacy
  }

  function MenuItemsBeforeScroll(access: PrefsAccess): (r: int)
    ensures access.EditorPrefs? && access.settings.Some? ==> r == access.settings.value.menuItemsBeforeScroll
    ensures access == EditorPrefs(None) ==> r == DefaultMenuItemsBeforeScroll
    ensures access == NoEditorPrefs ==> r == DefaultMenuItemsBeforeScroll
  {
    match access
    case EditorPrefs(Some(s)) => s.menuItemsBeforeScroll
    case EditorPrefs(None) => DefaultMenuItemsBeforeScroll
    case NoEditorPrefs => DefaultMenuItemsBeforeScroll
  }

  function DisableInstaller(access: PrefsAccess): (r: bool)
    ensures access.EditorPrefs? && access.settings.Some? ==> r == access.settings.value.disableInstaller
    ensures access == EditorPrefs(None) ==> r == DefaultDisableInstaller
    ensures access == NoEditorPrefs ==> r == DefaultDisableInstaller
  {
    match access
    case EditorPrefs(Some(s)) => s.disableInstaller
    case EditorPrefs(None) => DefaultDisableInstaller
    case NoEditorPrefs => DefaultDisableInstaller
  }

  // ---------------------------------------------------------------------------
  // Properties of the getters

  /** With settings, every getter reports the stored value (the node width after its own check). */
  lemma GettersReadStoredSettings(s: Prefs)
    ensures HierarchyIconOffset(EditorPrefs(Some(s))) == s.hierarchyIconOffset
    ensures EditorLabelWidth(EditorPrefs(Some(s))) == s.editorLabelWidth
    ensures ShowHierarchyIcons(EditorPrefs(Some(s))) == s.showHierarchyIcons
    ensures CSVFormatSetting(EditorPrefs(Some(s))) == s.csvFormat
    ensures MenuItemsBeforeScroll(EditorPrefs(Some(s))) == s.menuItemsBeforeScroll
    ensures DisableInstaller(EditorPrefs(Some(s))) == s.disableInstaller
    ensures 200 <= s.actionNodeWidth <= 800 ==> ActionNodeWidth(EditorPrefs(Some(s))) == s.actionNodeWidth
  {
  }

  /**
   * Without settings every getter reports its default: offsets and label
   * width 0, icons shown, 15 menu items, installer checks on, the standard
   * CSV format and node width 300.
   */
  lemma GettersFallBackToDefaults()
    ensures HierarchyIconOffset(EditorPrefs(None)) == 0
    ensures EditorLabelWidth(EditorPrefs(None)) == 0
    ensures ShowHierarchyIcons(EditorPrefs(None)) == true
    ensures CSVFormatSetting(EditorPrefs(None)) == Standard
    ensures MenuItemsBeforeScroll(EditorPrefs(None)) == 15
    ensures DisableInstaller(EditorPrefs(None)) == false
    ensures ActionNodeWidth(EditorPrefs(None)) == 300
  {
  }

  /**
   * Without editor preferences the getters agree with the missing-settings
   * case, except the CSV format, which is Legacy rather than Standard.
   */
  lemma GettersWithoutEditorPrefs()
    ensures HierarchyIconOffset(NoEditorPrefs) == HierarchyIconOffset(EditorPrefs(None))
    ensures EditorLabelWidth(NoEditorPrefs) == EditorLabelWidth(EditorPrefs(None))
    ensures ActionNodeWidth(NoEditorPrefs) == ActionNodeWidth(EditorPrefs(None))
    ensures ShowHierarchyIcons(NoEditorPrefs) == ShowHierarchyIcons(EditorPrefs(None))
    ensures MenuItemsBeforeScroll(NoEditorPrefs) == MenuItemsBeforeScroll(EditorPrefs(None))
    ensures DisableInstaller(NoEditorPrefs) == DisableInstaller(EditorPrefs(None))
    ensures CSVFormatSetting(NoEditorPrefs) == Legacy != CSVFormatSetting(EditorPrefs(None))
  {
  }

  /** A freshly created asset makes every getter answer what it answers with no asset at all. */
  lemma FreshSettingsChangeNoGetter()
    ensures var created := EditorPrefs(Some(DefaultPrefs()));
      HierarchyIconOffset(created) == HierarchyIconOffset(EditorPrefs(None)) &&
      EditorLabelWidth(created) == EditorLabelWidth(EditorPrefs(None)) &&
      ActionNodeWidth(created) == ActionNodeWidth(EditorPrefs(None)) &&
      ShowHierarchyIcons(created) == ShowHierarchyIcons(EditorPrefs(None)) &&
      CSVFormatSetting(created) == CSVFormatSetting(EditorPrefs(None)) &&
      MenuItemsBeforeScroll(created) == MenuItemsBeforeScroll(EditorPrefs(None)) &&
      DisableInstaller(created) == DisableInstaller(EditorPrefs(None))
  {
  }

  /** Storing the width that is shown changes nothing: the shown width is a fixed point. */
  lemma ActionNodeWidthIsStable(s: Prefs)
    ensures var shown := ActionNodeWidth(EditorPrefs(Some(s)));
      ActionNodeWidth(EditorPrefs(Some(s.(actionNodeWidth := shown)))) == shown
  {
  }

  // ---------------------------------------------------------------------------
  // The asset store

  /** The part of the editor's asset database that GetOrCreateSettings uses. */
  class EditorAssets {
    /** The asset at Editor/ACEditorPrefs.asset, if there is one. */
    var prefsAsset: Option<Prefs>
    /** Whether the Editor folder under the main folder is a valid folder. */
    var editorFolderValid: bool

    constructor (prefsAsset: Option<Prefs>, editorFolderValid: bool)
      ensures this.prefsAsset == prefsAsset && this.editorFolderValid == editorFolderValid
    {
      this.prefsAsset := prefsAsset;
      this.editorFolderValid := editorFolderValid;
    }

    /**
     * Returns the existing asset unchanged; otherwise makes sure the Editor
     * folder exists (`createFolderSucceeds` says whether creating it works)
     * and, if it does, creates and stores an asset with every default, or
     * returns None if it still does not.
     */
    method GetOrCreateSettings(createFolderSucceeds: bool) returns (settings: Option<Prefs>)
      modifies this
      ensures old(prefsAsset).Some? ==>
        settings == old(prefsAsset) && prefsAsset == old(prefsAsset) && editorFolderValid == old(editorFolderValid)
      ensures old(prefsAsset).None? ==> editorFolderValid == (old(editorFolderValid) || createFolderSucceeds)
      ensures old(prefsAsset).None? && editorFolderValid ==> settings == Some(DefaultPrefs())
      ensures settings.None? <==> old(prefsAsset).None? && !editorFolderValid
      ensures prefsAsset == settings
    {
      settings := prefsAsset;
      if settings.None? {
        var isValid := editorFolderValid;
        if !isValid {
          if createFolderSucceeds {
            editorFolderValid := true;
          }
          isValid := editorFolderValid;
        }

        if isValid {
          var created := FieldInitialisers();
          created := created.(hierarchyIconOffset := DefaultHierarchyIconOffset);
          created := created.(menuItemsBeforeScroll := DefaultMenuItemsBeforeScroll);
          created := created.(csvFormat := DefaultCSVFormat);
          created := created.(showHierarchyIcons := DefaultShowHierarchyIcons);
          created := created.(editorLabelWidth := DefaultEditorLabelWidth);
          created := created.(actionNodeWidth := DefaultActionNodeWidth);
          created := created.(disableInstaller := DefaultDisableInstaller);
          prefsAsset := Some(created);
          settings := prefsAsset;
        } else {
          return None;
        }
      }
    }
  }
}
