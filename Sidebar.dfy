/**
  The thread-list sidebar (Frontend/components/Sidebar.tsx): the newest-first
  list, selection of a thread or of a new draft, the two-step delete, inline
  rename, and the light/dark theme.

  The page that owns the selection is not part of this model: every call of
  the `onSelectThread` callback is recorded in `selections`, and the
  `activeThreadId` prop is changed only by the page (`SetActiveThread`).
  Mutations that are issued are recorded (`deletesIssued`, `renamesIssued`);
  their completion is handed to `OnDeleteSuccess` / `OnRenameSuccess`.
 */
module Sidebar {
  import opened Wrappers
  import opened ChatTypes
  import opened ConversationCache
  import Text
  import Sorting

  /** `localStorage.getItem('theme') || 'dark'`: a missing or empty stored theme falls back to dark. */
  function InitialTheme(stored: Option<string>): (theme: string)
    ensures Truthy(stored) ==> theme == stored.value
    ensures !Truthy(stored) ==> theme == "dark"
  {
    if Truthy(stored) then stored.value else "dark"
  }

  /** `theme === 'light' ? 'dark' : 'light'`. */
  function Toggled(theme: string): (r: string)
    ensures r == "light" || r == "dark"
    ensures r != theme || (theme != "light" && theme != "dark")
  {
    if theme == "light" then "dark" else "light"
  }

  /** Toggling twice restores exactly the two themes the toggle knows; any other stored value becomes "dark". */
  lemma ToggleTwice(theme: string)
    ensures Toggled(Toggled(theme)) == theme <==> theme == "light" || theme == "dark"
    ensures Toggled(Toggled(theme)) == (if theme == "light" then "light" else "dark")
  {
    assert "light" != "dark";
  }

  /** The theme effect persists every theme, and a later mount reads back the same theme. */
  lemma ToggledThemeSurvivesReload(theme: string)
    ensures InitialTheme(Some(Toggled(theme))) == Toggled(theme)
  {
  }

  /** The mount writes back a theme that a later mount reads unchanged; only an empty or missing value changes, to "dark". */
  lemma MountedThemeStable(saved: Option<string>)
    ensures InitialTheme(Some(InitialTheme(saved))) == InitialTheme(saved)
    ensures Some(InitialTheme(saved)) == saved <==> Truthy(saved)
  {
  }

  /** One row of the list: its own inline editor for the title. */
  class ConversationItem {
    const threadId: string
    var isEditing: bool
    var editTitle: string

    /** The editor starts closed, holding the title the row was mounted with. */
    constructor (conv: ConversationSummary)
      ensures threadId == conv.threadId && editTitle == conv.title && !isEditing
    {
      threadId := conv.threadId;
      editTitle := conv.title;
      isEditing := false;
    }

    /** The pencil button. */
    method StartEditing()
      modifies this`isEditing
      ensures isEditing
    {
      isEditing := true;
    }

    /** The input's `onChange`. */
    method SetEditTitle(text: string)
      modifies this`editTitle
      ensures editTitle == text
    {
      editTitle := text;
    }

    /** The cross button closes the editor without renaming. */
    method CancelEditing()
      modifies this`isEditing
      ensures !isEditing && editTitle == old(editTitle)
    {
      isEditing := false;
    }

    /**
      `handleRename`: a title that trims to nothing is refused and the editor
      stays open; otherwise the title is submitted as typed, untrimmed, and
      the editor closes.
     */
    method HandleRename(owner: SidebarContent)
      modifies this`isEditing, owner`renamesIssued
      ensures Text.Trim(Text.JavaScript, editTitle) != [] ==>
        && owner.renamesIssued == old(owner.renamesIssued) + [(threadId, editTitle)]
        && !isEditing
      ensures Text.Trim(Text.JavaScript, editTitle) == [] ==>
        owner.renamesIssued == old(owner.renamesIssued) && isEditing == old(isEditing)
      ensures editTitle == old(editTitle)
    {
      if Text.Trim(Text.JavaScript, editTitle) != [] {
        owner.Rename(threadId, editTitle);
        isEditing := false;
      }
    }
  }

  class SidebarContent {
    const cache: QueryClient
    /** The `activeThreadId` prop. */
    var activeThreadId: Option<string>
    /** Every `onSelectThread` call, in order; `None` is `null`. */
    var selections: seq<Option<string>>
    var theme: string
    /** The `theme` key of local storage, written by the theme effect. */
    var storedTheme: Option<string>
    /** The thread waiting for the delete confirmation, if any. */
    var deleteId: Option<string>
    var deletesIssued: seq<string>
    var renamesIssued: seq<(string, string)>

    /**
      The mount: `theme` starts from `savedTheme`, the `theme` key of local
      storage before the mount, and the theme effect's first run writes it
      back, so the key then holds the initial theme.
     */
    constructor (cache: QueryClient, activeThreadId: Option<string>, savedTheme: Option<string>)
      ensures this.cache == cache && this.activeThreadId == activeThreadId
      ensures theme == InitialTheme(savedTheme) && storedTheme == Some(theme)
      ensures selections == [] && deleteId == None && deletesIssued == [] && renamesIssued == []
      ensures !ShowsDeleteDialog()
    {
      this.cache := cache;
      this.activeThreadId := activeThreadId;
      theme := InitialTheme(savedTheme);
      storedTheme := Some(theme);
      selections := [];
      deleteId := None;
      deletesIssued := [];
      renamesIssued := [];
    }

    /** The row of `conv` is highlighted iff it is the selected thread. */
    predicate IsActive(conv: ConversationSummary)
      reads this
    {
      activeThreadId == Some(conv.threadId)
    }

    /** The confirmation dialog is open while a non-empty id is pending. */
    predicate ShowsDeleteDialog()
      reads this
    {
      Truthy(deleteId)
    }

    /** The page re-renders the sidebar with another selection. */
    method SetActiveThread(id: Option<string>)
      modifies this`activeThreadId
      ensures activeThreadId == id
      ensures forall conv :: IsActive(conv) <==> id == Some(conv.threadId)
    {
      activeThreadId := id;
    }

    /** `toggleTheme` followed by the theme effect that persists it. */
    method ToggleTheme()
      modifies this`theme, this`storedTheme
      ensures theme == Toggled(old(theme)) && storedTheme == Some(theme)
    {
      theme := Toggled(theme);
      storedTheme := Some(theme);
    }

    /** The "New Chat" button selects a draft. */
    method NewChat()
      modifies this`selections
      ensures selections == old(selections) + [None]
    {
      selections := selections + [None];
    }

    /** Clicking a row selects its thread. */
    method Select(conv: ConversationSummary)
      modifies this`selections
      ensures selections == old(selections) + [Some(conv.threadId)]
    {
      selections := selections + [Some(conv.threadId)];
    }

    /** `renameMutation.mutate({ id, title })`. */
    method Rename(id: string, title: string)
      modifies this`renamesIssued
      ensures renamesIssued == old(renamesIssued) + [(id, title)]
    {
      renamesIssued := renamesIssued + [(id, title)];
    }

    /** `handleDelete`: the trash button only remembers the thread; nothing is deleted yet. */
    method HandleDelete(id: string)
      modifies this`deleteId
      ensures deleteId == Some(id)
      ensures ShowsDeleteDialog() <==> id != ""
    {
      deleteId := Some(id);
    }

    /** The dialog's Cancel button. */
    method CancelDelete()
      modifies this`deleteId
      ensures deleteId == None && !ShowsDeleteDialog()
    {
      deleteId := None;
    }

    /**
      `confirmDelete`: with a non-empty pending id, issue exactly that delete
      and close the dialog; otherwise do nothing (an empty pending id stays).
     */
    method ConfirmDelete()
      modifies this`deleteId, this`deletesIssued
      ensures Truthy(old(deleteId)) ==> deletesIssued == old(deletesIssued) + [old(deleteId).value] && deleteId == None
      ensures !Truthy(old(deleteId)) ==> deletesIssued == old(deletesIssued) && deleteId == old(deleteId)
      ensures !ShowsDeleteDialog()
    {
      if Truthy(deleteId) {
        deletesIssued := deletesIssued + [deleteId.value];
        deleteId := None;
      }
    }

    /**
      The delete mutation's `onSuccess`: mark the list stale, and select a
      draft iff the deleted thread is the selected one.
     */
    method OnDeleteSuccess(deletedId: string)
      modifies this`selections, cache`listInvalidations
      ensures cache.listInvalidations == old(cache.listInvalidations) + 1
      ensures activeThreadId == Some(deletedId) ==> selections == old(selections) + [None]
      ensures activeThreadId != Some(deletedId) ==> selections == old(selections)
    {
      cache.InvalidateList();
      if activeThreadId == Some(deletedId) {
        selections := selections + [None];
      }
    }

    /** The rename mutation's `onSuccess` only marks the list stale. */
    method OnRenameSuccess()
      modifies cache`listInvalidations
      ensures cache.listInvalidations == old(cache.listInvalidations) + 1
    {
      cache.InvalidateList();
    }

    /**
      `sortedConversations`: the fetched list, reordered in place newest
      first by `updated_at`.
     */
    method SortConversations(conversations: array<ConversationSummary>)
      modifies conversations
      ensures Sorting.SortedDesc(conversations[..], (c: ConversationSummary) => c.updatedAt)
      ensures multiset(conversations[..]) == multiset(old(conversations[..]))
    {
      Sorting.SortDescending(conversations, (c: ConversationSummary) => c.updatedAt);
    }
  }

  /**
    Deleting the selected thread "t1": its row is highlighted; the trash
    button alone deletes nothing and opens the dialog; the confirmation
    issues the one delete and closes it, and its success selects a draft.
   */
  method DeleteSelectedScenario(theme: Option<string>)
    returns (highlighted: bool, beforeConfirm: seq<string>, dialogOpen: bool, issued: seq<string>, dialogAfter: bool,
             selected: seq<Option<string>>)
    ensures highlighted && beforeConfirm == [] && dialogOpen
    ensures issued == ["t1"] && !dialogAfter && selected == [None]
  {
    var cache := new QueryClient();
    var bar := new SidebarContent(cache, Some("t1"), theme);
    var row := ConversationSummary("t1", "Chat", 0, 0, 0);
    highlighted := bar.IsActive(row);
    bar.HandleDelete(row.threadId);
    beforeConfirm := bar.deletesIssued;
    dialogOpen := bar.ShowsDeleteDialog();
    bar.ConfirmDelete();
    issued := bar.deletesIssued;
    dialogAfter := bar.ShowsDeleteDialog();
    bar.OnDeleteSuccess("t1");
    selected := bar.selections;
  }
}
