/** The top bar: its profile menu with two sub-panels, the colour-scheme
    toggle and a data export without summary lines. */
module AppHeader {
  import opened Text
  import opened Subscriptions
  import opened CsvExport
  import AccountSidebar

  datatype PanelView = MainPanel | Notifications | Family

  /** The lines of the header's export: the column titles and one line per
      record in list order, nothing after them. */
  function ExportLines(subs: seq<Sub>): (r: seq<string>)
    ensures |r| == |subs| + 1
    ensures r[0] == HeaderLine()
    ensures forall i :: 0 <= i < |subs| ==> r[i + 1] == Row(subs[i])
  {
    var rows := RecordLines(subs);
    assert forall i :: 0 <= i < |subs| ==> ([HeaderLine()] + rows)[i + 1] == rows[i];
    [HeaderLine()] + rows
  }

  /** The header's export is the sidebar's export without its last four
      lines: same header, same records, no blank line and no summary. */
  lemma ExportIsSidebarPrefix(subs: seq<Sub>)
    ensures AccountSidebar.ExportLines(subs)[..|subs| + 1] == ExportLines(subs)
    ensures |AccountSidebar.ExportLines(subs)| == |ExportLines(subs)| + 4
  {
    var long := AccountSidebar.ExportLines(subs);
    var short := ExportLines(subs);
    forall i | 0 <= i < |subs| + 1 ensures long[i] == short[i] {
      if i > 0 {
        assert long[(i - 1) + 1] == short[(i - 1) + 1];
      }
    }
  }

  /** Splitting the downloaded file into lines gives the export lines back
      when no free-text field holds a line feed. */
  lemma ExportFileRoundTrip(subs: seq<Sub>)
    requires forall i :: 0 <= i < |subs| ==>
      Free(subs[i].service, '\n') && Free(subs[i].nextBilling, '\n') && Free(subs[i].category, '\n')
    ensures Split(FileText(ExportLines(subs)), '\n') == ExportLines(subs)
  {
    var r := ExportLines(subs);
    HeaderSingleLine();
    forall i | 0 <= i < |subs| ensures Free(Row(subs[i]), '\n') {
      RowSingleLine(subs[i]);
    }
    forall i | 0 <= i < |r| ensures Free(r[i], '\n') {
      if i > 0 {
        assert r[i] == r[(i - 1) + 1];
      }
    }
    FileRoundTrip(r);
  }

  /** The menu's state: whether the dark scheme is on, whether the profile
      menu is open and which of its panels shows. */
  class HeaderMenu {
    var dark: bool
    var profileOpen: bool
    var panelView: PanelView

    /** The scheme starts as the page's current one; the menu starts closed
        on its main panel. */
    constructor (pageIsDark: bool)
      ensures dark == pageIsDark && !profileOpen && panelView == MainPanel
    {
      dark := pageIsDark;
      profileOpen := false;
      panelView := MainPanel;
    }

    /** The avatar button: opens a closed menu and closes an open one, on
        whatever panel it last showed. */
    method ToggleProfile()
      modifies this
      ensures profileOpen == !old(profileOpen)
      ensures panelView == old(panelView) && dark == old(dark)
    {
      profileOpen := !profileOpen;
    }

    /** A panel link or a back button. */
    method ShowPanel(v: PanelView)
      modifies this
      ensures panelView == v
      ensures profileOpen == old(profileOpen) && dark == old(dark)
    {
      panelView := v;
    }

    /** `handleClose`: the menu closes and is back on its main panel. */
    method HandleClose()
      modifies this
      ensures !profileOpen && panelView == MainPanel
      ensures dark == old(dark)
    {
      profileOpen := false;
      panelView := MainPanel;
    }

    /** A mouse press anywhere on the page: one outside the menu closes it
        as `handleClose` does; one inside changes nothing. */
    method MouseDown(insideMenu: bool)
      modifies this
      ensures insideMenu ==> profileOpen == old(profileOpen) && panelView == old(panelView)
      ensures !insideMenu ==> !profileOpen && panelView == MainPanel
      ensures dark == old(dark)
    {
      if !insideMenu {
        HandleClose();
      }
    }

    /** The sun and moon button. */
    method ToggleDark()
      modifies this
      ensures dark == !old(dark)
      ensures profileOpen == old(profileOpen) && panelView == old(panelView)
    {
      dark := !dark;
    }

    /** `handleExport`: the file's lines, then the menu closes. */
    method HandleExport(subs: seq<Sub>) returns (lines: seq<string>)
      modifies this
      ensures lines == ExportLines(subs)
      ensures !profileOpen && panelView == MainPanel
      ensures dark == old(dark)
    {
      lines := [HeaderLine()] + RecordLines(subs);
      HandleClose();
    }
  }

  /** Closing the menu with the avatar button keeps the panel it showed, so
      opening it again shows that panel rather than the main one. */
  method ReopenAfterToggle(m: HeaderMenu)
    requires m.profileOpen && m.panelView == Family
    modifies m
    ensures m.profileOpen && m.panelView == Family
  {
    m.ToggleProfile();
    m.ToggleProfile();
  }
}
