/** The window's state (src/renderer/main.ts): the newest-first log buffer and
    its type filter, the host list last loaded from the registry, and the host
    form with the id of the entry being edited. Calls over the IPC bridge are
    direct calls on the registry (Store.AppStore); drawing is not modelled. */
module Renderer {
  import opened Wrappers
  import opened Text
  import opened Types
  import opened Lists
  import opened Store

  /** At most this many log entries are kept. */
  const MAX_LOGS := 500

  /** The filter that shows every entry. */
  const ALL_FILTER := "all"

  /** `logs.unshift(log)` and, past the cap, `logs.slice(0, 500)`: the new entry
      first, then the older ones in their order, as many as fit. */
  function Prepend(logs: seq<LogEntry>, log: LogEntry): (r: seq<LogEntry>)
    ensures |r| == if |logs| + 1 > MAX_LOGS then MAX_LOGS else |logs| + 1
    ensures r[0] == log
    ensures r[1..] == logs[..|r| - 1]
  {
    var added := [log] + logs;
    var r := if |added| > MAX_LOGS then added[..MAX_LOGS] else added;
    assert r[1..] == logs[..|r| - 1];
    r
  }

  /** Whatever was there before, the buffer never grows past the cap. */
  lemma PrependKeepsCap(logs: seq<LogEntry>, log: LogEntry)
    requires |logs| <= MAX_LOGS
    ensures |Prepend(logs, log)| <= MAX_LOGS
    ensures |logs| < MAX_LOGS ==> Prepend(logs, log) == [log] + logs
  {
    var r := Prepend(logs, log);
    if |logs| < MAX_LOGS {
      assert r == [r[0]] + r[1..];
    }
  }

  /** The newest `MAX_LOGS` entries of a newest-first list. */
  function Newest(s: seq<LogEntry>): (r: seq<LogEntry>)
    ensures |r| == if |s| > MAX_LOGS then MAX_LOGS else |s|
    ensures r == s[..|r|]
  {
    if |s| > MAX_LOGS then s[..MAX_LOGS] else s
  }

  function Reversed(s: seq<LogEntry>): (r: seq<LogEntry>)
    ensures |r| == |s|
  {
    if s == [] then [] else Reversed(s[1..]) + [s[0]]
  }

  lemma {:induction false} ReversedAt(s: seq<LogEntry>, k: int)
    requires 0 <= k < |s|
    ensures Reversed(s)[k] == s[|s| - 1 - k]
    decreases |s|
  {
    if k < |s| - 1 {
      ReversedAt(s[1..], k);
    }
  }

  /** `addLog` called for each of `entries`, in order. */
  function AddAll(logs: seq<LogEntry>, entries: seq<LogEntry>): seq<LogEntry>
    decreases |entries|
  {
    if entries == [] then logs else AddAll(Prepend(logs, entries[0]), entries[1..])
  }

  lemma NewestOfNewest(x: seq<LogEntry>, y: seq<LogEntry>)
    ensures Newest(x + Newest(y)) == Newest(x + y)
  {
    if |y| > MAX_LOGS {
      assert (x + Newest(y))[..MAX_LOGS] == (x + y)[..MAX_LOGS];
    }
  }

  /** Adding an entry is keeping the newest ones of the list with it in front. */
  lemma PrependIsNewest(logs: seq<LogEntry>, log: LogEntry)
    ensures Prepend(logs, log) == Newest([log] + logs)
  {
  }

  /** However many entries arrive, the buffer holds the newest 500 of them and
      of what was there, newest first. */
  lemma {:induction false} AddAllKeepsNewest(logs: seq<LogEntry>, entries: seq<LogEntry>)
    requires |logs| <= MAX_LOGS
    ensures AddAll(logs, entries) == Newest(Reversed(entries) + logs)
    decreases |entries|
  {
    if entries == [] {
      assert Reversed(entries) + logs == logs;
    } else {
      var first, rest := entries[0], entries[1..];
      var added := Prepend(logs, first);
      PrependKeepsCap(logs, first);
      AddAllKeepsNewest(added, rest);
      PrependIsNewest(logs, first);
      NewestOfNewest(Reversed(rest), [first] + logs);
      ReversedThenOlder(entries, logs);
    }
  }

  /** Reversing moves the first entry behind the others, in front of the older ones. */
  lemma ReversedThenOlder(entries: seq<LogEntry>, logs: seq<LogEntry>)
    requires entries != []
    ensures Reversed(entries) + logs == Reversed(entries[1..]) + ([entries[0]] + logs)
  {
    var later, first := Reversed(entries[1..]), [entries[0]];
    assert Reversed(entries) == later + first;
    AppendAssoc(later, first, logs);
  }

  lemma AppendAssoc(a: seq<LogEntry>, b: seq<LogEntry>, c: seq<LogEntry>)
    ensures (a + b) + c == a + (b + c)
  {
  }

  function MatchesFilter(log: LogEntry, filter: string): bool {
    LogTypeName(log.logType) == filter
  }

  /** `currentFilter === 'all' ? logs : logs.filter(log => log.type === currentFilter)`. */
  function FilterLogs(logs: seq<LogEntry>, filter: string): (r: seq<LogEntry>)
    ensures filter == ALL_FILTER ==> r == logs
    ensures filter != ALL_FILTER ==>
              && (forall k :: 0 <= k < |r| ==> MatchesFilter(r[k], filter) && r[k] in logs)
              && (forall k :: 0 <= k < |logs| && MatchesFilter(logs[k], filter) ==> logs[k] in r)
  {
    if filter == ALL_FILTER then logs
    else Filter(logs, (log: LogEntry) => MatchesFilter(log, filter))
  }

  /** A filter that names no log type (only 'http', 'ws', 'error' and 'info'
      exist) shows nothing. */
  lemma UnknownFilterShowsNothing(logs: seq<LogEntry>, filter: string)
    requires filter != ALL_FILTER
    requires filter != "http" && filter != "ws" && filter != "error" && filter != "info"
    ensures FilterLogs(logs, filter) == []
  {
    var p := (log: LogEntry) => MatchesFilter(log, filter);
    assert forall k :: 0 <= k < |logs| ==> !p(logs[k]);
    assert FilterLogs(logs, filter) == Filter(logs, p);
  }

  /** The filtered view of a buffer that got a new entry in front is the view of
      the older entries the cap keeps, with the new entry in front exactly when it
      passes the filter; below the cap those are all the older entries. */
  lemma FilterAfterPrepend(logs: seq<LogEntry>, log: LogEntry, filter: string)
    ensures var kept := logs[..|Prepend(logs, log)| - 1];
            && (|logs| < MAX_LOGS ==> kept == logs)
            && FilterLogs(Prepend(logs, log), filter)
               == (if filter == ALL_FILTER || MatchesFilter(log, filter) then [log] else [])
                  + FilterLogs(kept, filter)
  {
    var r := Prepend(logs, log);
    var kept := logs[..|r| - 1];
    assert r == [log] + kept by {
      assert r == [r[0]] + r[1..];
    }
    if filter != ALL_FILTER {
      FilterConcat([log], kept, (e: LogEntry) => MatchesFilter(e, filter));
    }
  }

  /** The fields of the host form, as the inputs hold them. */
  datatype HostForm = HostForm(subdomain: string, port: string, enabled: bool)

  /** What `saveHost` asks of the registry. */
  datatype SaveAction =
    | SkipSave
    | UpdateCall(id: string, subdomain: string, port: int, enabled: bool)
    | AddCall(host: NewHost)

  /** The decision `saveHost` makes: nothing when the trimmed subdomain is empty
      or the port does not parse; an update when an id is being edited (the empty
      id counts as none); an addition otherwise. */
  function SaveDecision(form: HostForm, editingHostId: Option<string>): (a: SaveAction)
    ensures a.SkipSave? <==> Trim(form.subdomain) == "" || ParseInt(form.port).NaN?
    ensures a.UpdateCall? <==> !a.SkipSave? && editingHostId.Some? && editingHostId.value != ""
    ensures a.UpdateCall? ==> a.id == editingHostId.value
    ensures !a.SkipSave? ==>
              var (s, p, e) := if a.UpdateCall? then (a.subdomain, a.port, a.enabled)
                               else (a.host.subdomain, a.host.port, a.host.enabled);
              s == Trim(form.subdomain) && Int(p) == ParseInt(form.port) && e == form.enabled
  {
    var subdomain := Trim(form.subdomain);
    var port := ParseInt(form.port);
    if subdomain == "" || port.NaN? then SkipSave
    else if editingHostId.Some? && editingHostId.value != "" then
      UpdateCall(editingHostId.value, subdomain, port.value, form.enabled)
    else AddCall(NewHost(subdomain, port.value, form.enabled))
  }

  /** The form `openEditModal` fills in for an entry. */
  function EditForm(h: HostConfig): HostForm {
    HostForm(h.subdomain, IntToString(h.port), h.enabled)
  }

  /** Opening an entry for editing and saving without touching the form sends
      the entry's own fields back, as long as its subdomain has no surrounding
      white space and its id is not empty. */
  lemma SaveUnchangedEditSendsSameFields(h: HostConfig)
    requires h.subdomain != "" && !IsJsSpace(h.subdomain[0]) && !IsJsSpace(h.subdomain[|h.subdomain| - 1])
    requires h.id != ""
    ensures SaveDecision(EditForm(h), Some(h.id)) == UpdateCall(h.id, h.subdomain, h.port, h.enabled)
  {
    var form := EditForm(h);
    assert Trim(form.subdomain) == h.subdomain by {
      assert "" + h.subdomain + "" == h.subdomain;
      TrimPadded("", h.subdomain, "");
    }
    assert ParseInt(form.port) == Int(h.port) by {
      ParseIntRoundTrip(h.port);
    }
    var a := SaveDecision(form, Some(h.id));
    assert a.UpdateCall?;
  }




  /** An entry whose id is empty is saved as a new entry, not updated. */
  lemma EmptyIdIsSavedAsNew(form: HostForm)
    requires Trim(form.subdomain) != "" && ParseInt(form.port).Int?
    ensures SaveDecision(form, Some("")).AddCall?
  {
  }

  class Renderer {
    var hosts: seq<HostConfig>
    var logs: seq<LogEntry>
    var currentFilter: string
    var editingHostId: Option<string>
    var form: HostForm
    var modalOpen: bool

    constructor ()
      ensures hosts == [] && logs == [] && currentFilter == ALL_FILTER
      ensures editingHostId == None && !modalOpen
    {
      hosts, logs := [], [];
      currentFilter := ALL_FILTER;
      editingHostId := None;
      form := HostForm("", "", true);
      modalOpen := false;
    }

    /** What the log view shows. */
    function VisibleLogs(): seq<LogEntry>
      reads this
    {
      FilterLogs(logs, currentFilter)
    }

    /** `addLog`: a 'log' event from the proxy. */
    method AddLog(log: LogEntry)
      modifies this
      ensures logs == Prepend(old(logs), log)
      ensures hosts == old(hosts) && currentFilter == old(currentFilter)
      ensures editingHostId == old(editingHostId) && form == old(form) && modalOpen == old(modalOpen)
    {
      logs := [log] + logs;
      if |logs| > MAX_LOGS {
        logs := logs[..MAX_LOGS];
      }
    }

    /** The clear button. */
    method ClearLogs()
      modifies this
      ensures logs == [] && VisibleLogs() == []
      ensures hosts == old(hosts) && currentFilter == old(currentFilter)
      ensures editingHostId == old(editingHostId) && form == old(form) && modalOpen == old(modalOpen)
    {
      logs := [];
    }

    /**
     * A filter button; `filter` is the button's `data-filter` attribute, `None`
     * when the button has none. A missing or empty attribute leaves the filter as it was.
     */
    method SelectFilter(filter: Option<string>)
      modifies this
      ensures filter.None? || filter.value == "" ==> currentFilter == old(currentFilter)
      ensures filter.Some? && filter.value != "" ==> currentFilter == filter.value
      ensures VisibleLogs() == FilterLogs(old(logs), currentFilter)
      ensures hosts == old(hosts) && logs == old(logs)
      ensures editingHostId == old(editingHostId) && form == old(form) && modalOpen == old(modalOpen)
    {
      if filter.Some? && filter.value != "" {
        currentFilter := filter.value;
      }
    }

    /** `loadHosts`. */
    method LoadHosts(store: AppStore)
      modifies this
      ensures hosts == store.hosts
      ensures logs == old(logs) && currentFilter == old(currentFilter)
      ensures editingHostId == old(editingHostId) && form == old(form) && modalOpen == old(modalOpen)
    {
      hosts := store.GetHosts();
    }

    /** `openAddModal`: an empty form with 'enabled' ticked, editing nothing. */
    method OpenAddModal()
      modifies this
      ensures editingHostId == None && form == HostForm("", "", true) && modalOpen
      ensures hosts == old(hosts) && logs == old(logs) && currentFilter == old(currentFilter)
    {
      editingHostId := None;
      form := HostForm("", "", true);
      modalOpen := true;
    }

    /** `openEditModal`: the first loaded entry with that id fills the form; an
        unknown id changes nothing. */
    method OpenEditModal(id: string)
      modifies this
      ensures IndexOfId(old(hosts), id).None? ==>
                editingHostId == old(editingHostId) && form == old(form) && modalOpen == old(modalOpen)
      ensures IndexOfId(old(hosts), id).Some? ==>
                && editingHostId == Some(id) && modalOpen
                && form == EditForm(old(hosts)[IndexOfId(old(hosts), id).value])
      ensures hosts == old(hosts) && logs == old(logs) && currentFilter == old(currentFilter)
    {
      var i := IndexOfId(hosts, id);
      if i.None? {
        return;
      }
      editingHostId := Some(id);
      form := EditForm(hosts[i.value]);
      modalOpen := true;
    }

    /** `closeModal`. */
    method CloseModal()
      modifies this
      ensures editingHostId == None && !modalOpen
      ensures hosts == old(hosts) && logs == old(logs) && currentFilter == old(currentFilter)
      ensures form == old(form)
    {
      modalOpen := false;
      editingHostId := None;
    }

    /** `saveHost`: performs `SaveDecision`; after a completed call the modal is
        closed and the host list reloaded. A failed update (unknown id) is
        rethrown before either happens. */
    method SaveHost(store: AppStore, freshId: string) returns (r: Outcome<string>)
      modifies this, store
      ensures var a := SaveDecision(old(form), old(editingHostId));
              && (a.SkipSave? ==>
                    r == Pass && store.hosts == old(store.hosts)
                    && hosts == old(hosts) && editingHostId == old(editingHostId) && modalOpen == old(modalOpen))
              && (a.AddCall? ==>
                    r == Pass
                    && store.hosts == old(store.hosts) + [HostConfig(freshId, a.host.subdomain, a.host.port, a.host.enabled)]
                    && hosts == store.hosts && editingHostId == None && !modalOpen)
              && (a.UpdateCall? && IndexOfId(old(store.hosts), a.id).None? ==>
                    r == Fail("Host not found: " + a.id) && store.hosts == old(store.hosts)
                    && hosts == old(hosts) && editingHostId == old(editingHostId) && modalOpen == old(modalOpen))
              && (a.UpdateCall? && IndexOfId(old(store.hosts), a.id).Some? ==>
                    var i := IndexOfId(old(store.hosts), a.id).value;
                    && r == Pass
                    && store.hosts == old(store.hosts)[i := HostConfig(a.id, a.subdomain, a.port, a.enabled)]
                    && hosts == store.hosts && editingHostId == None && !modalOpen)
      ensures store.config == old(store.config)
      ensures logs == old(logs) && currentFilter == old(currentFilter) && form == old(form)
    {
      ghost var a := SaveDecision(form, editingHostId);
      var subdomain := Trim(form.subdomain);
      var port := ParseInt(form.port);
      var enabled := form.enabled;
      if subdomain == "" || port.NaN? {
        assert a.SkipSave?;
        return Pass;
      }
      if editingHostId.Some? && editingHostId.value != "" {
        assert a == UpdateCall(editingHostId.value, subdomain, port.value, enabled);
        var updated := store.UpdateHost(editingHostId.value,
                                        HostUpdate(None, Some(subdomain), Some(port.value), Some(enabled)));
        if updated.Failure? {
          return Fail(updated.error);
        }
      } else {
        assert a == AddCall(NewHost(subdomain, port.value, enabled));
        var added := store.AddHost(NewHost(subdomain, port.value, enabled), freshId);
      }
      CloseModal();
      LoadHosts(store);
      r := Pass;
    }

    /** `deleteHost`: an unknown id, or a declined confirmation, does nothing;
        otherwise the entry is deleted and the list reloaded. */
    method DeleteHost(store: AppStore, id: string, confirmed: bool)
      modifies this, store
      ensures IndexOfId(old(hosts), id).None? || !confirmed ==>
                store.hosts == old(store.hosts) && hosts == old(hosts)
      ensures IndexOfId(old(hosts), id).Some? && confirmed ==>
                store.hosts == WithoutId(old(store.hosts), id) && hosts == store.hosts
      ensures store.config == old(store.config)
      ensures logs == old(logs) && currentFilter == old(currentFilter)
      ensures editingHostId == old(editingHostId) && form == old(form) && modalOpen == old(modalOpen)
    {
      var i := IndexOfId(hosts, id);
      if i.None? || !confirmed {
        return;
      }
      store.DeleteHost(id);
      LoadHosts(store);
    }
  }
}
