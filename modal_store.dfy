/** The modal stack: every operation replaces the store's value by a new list
    of modal configurations. The component and the prop values are opaque to
    the store and appear as type parameters. */
module ModalStore {
  import opened Remote
  import opened Text
  import opened Lists

  datatype ModalSize = Sm | Md | Lg | Xl | Full

  datatype ModalPosition = Center | Top | Bottom

  datatype ModalOptions = ModalOptions(
    closeOnEscape: bool,
    closeOnBackdrop: bool,
    size: ModalSize,
    position: ModalPosition)

  /** `config.options` as a caller passes it: every field optional. */
  datatype OptionsPatch = OptionsPatch(
    closeOnEscape: Option<bool>,
    closeOnBackdrop: Option<bool>,
    size: Option<ModalSize>,
    position: Option<ModalPosition>)

  datatype ModalConfig<C, V> = ModalConfig(
    id: string,
    component: C,
    props: Option<map<string, V>>,
    options: ModalOptions)

  /** What `open` takes: a configuration without its id. */
  datatype OpenRequest<C, V> = OpenRequest(
    component: C,
    props: Option<map<string, V>>,
    options: Option<OptionsPatch>)

  datatype ModalState<C, V> = ModalState(modals: seq<ModalConfig<C, V>>)

  datatype Opened<C, V> = Opened(state: ModalState<C, V>, id: string)

  const DEFAULT_OPTIONS: ModalOptions := ModalOptions(true, true, Md, Center)

  function ModalId<C, V>(m: ModalConfig<C, V>): string { m.id }

  /** `{ closeOnEscape: true, closeOnBackdrop: true, size: 'md',
      position: 'center', ...config.options }`. */
  function WithDefaults(patch: Option<OptionsPatch>): (o: ModalOptions)
    ensures patch.None? ==> o == DEFAULT_OPTIONS
    ensures patch.Some? ==>
      && o.closeOnEscape == patch.value.closeOnEscape.GetOr(true)
      && o.closeOnBackdrop == patch.value.closeOnBackdrop.GetOr(true)
      && o.size == patch.value.size.GetOr(Md)
      && o.position == patch.value.position.GetOr(Center)
  {
    match patch
    case None => DEFAULT_OPTIONS
    case Some(p) =>
      ModalOptions(
        p.closeOnEscape.GetOr(DEFAULT_OPTIONS.closeOnEscape),
        p.closeOnBackdrop.GetOr(DEFAULT_OPTIONS.closeOnBackdrop),
        p.size.GetOr(DEFAULT_OPTIONS.size),
        p.position.GetOr(DEFAULT_OPTIONS.position))
  }

  /** The generated id, `modal-<Date.now()>-<random suffix>`; the clock and
      the random suffix are parameters. */
  function ModalIdFor(now: int, suffix: string): (id: string)
    ensures |id| >= 7 && id[..6] == "modal-"
  {
    "modal-" + IntToString(now) + "-" + suffix
  }

  /** `open(config)`: one modal more, on top, with the generated id. */
  function Open<C, V>(s: ModalState<C, V>, config: OpenRequest<C, V>, now: int, suffix: string): (r: Opened<C, V>)
    ensures |r.state.modals| == |s.modals| + 1
    ensures r.state.modals[..|s.modals|] == s.modals
    ensures r.state.modals[|s.modals|] ==
      ModalConfig(r.id, config.component, config.props, WithDefaults(config.options))
    ensures r.id == ModalIdFor(now, suffix)
  {
    var id := ModalIdFor(now, suffix);
    var modal := ModalConfig(id, config.component, config.props, WithDefaults(config.options));
    Opened(ModalState(s.modals + [modal]), id)
  }

  /** `close(id)`. */
  function Close<C, V>(s: ModalState<C, V>, id: string): (r: ModalState<C, V>)
    ensures forall k :: 0 <= k < |r.modals| ==> r.modals[k].id != id && r.modals[k] in s.modals
    ensures forall k :: 0 <= k < |s.modals| && s.modals[k].id != id ==> s.modals[k] in r.modals
  {
    RemoveWithIdMeaning(s.modals, ModalId, id);
    ModalState(RemoveWithId(s.modals, ModalId, id))
  }

  /** `closeTop()`: `slice(0, -1)`, which leaves an empty stack empty. */
  function CloseTop<C, V>(s: ModalState<C, V>): (r: ModalState<C, V>)
    ensures |r.modals| == if s.modals == [] then 0 else |s.modals| - 1
    ensures r.modals == s.modals[..|r.modals|]
  {
    if s.modals == [] then s else ModalState(s.modals[..|s.modals| - 1])
  }

  /** `closeAll()`. */
  function CloseAll<C, V>(s: ModalState<C, V>): (r: ModalState<C, V>)
    ensures r.modals == []
  {
    ModalState([])
  }

  /** `{ ...modal.props, ...newProps }`: a missing `props` spreads as `{}`. */
  function MergeProps<V>(props: Option<map<string, V>>, newProps: map<string, V>): (r: map<string, V>)
    ensures r.Keys == props.GetOr(map[]).Keys + newProps.Keys
    ensures forall k :: k in newProps ==> r[k] == newProps[k]
    ensures forall k :: k in props.GetOr(map[]) && k !in newProps ==> r[k] == props.GetOr(map[])[k]
  {
    props.GetOr(map[]) + newProps
  }

  function WithMergedProps<C, V>(newProps: map<string, V>): ModalConfig<C, V> -> ModalConfig<C, V> {
    (m: ModalConfig<C, V>) => m.(props := Some(MergeProps(m.props, newProps)))
  }

  /** `updateProps(id, newProps)`. */
  function UpdateProps<C, V>(s: ModalState<C, V>, id: string, newProps: map<string, V>): (r: ModalState<C, V>)
    ensures |r.modals| == |s.modals|
    ensures forall k :: 0 <= k < |s.modals| && s.modals[k].id != id ==> r.modals[k] == s.modals[k]
    ensures forall k :: 0 <= k < |s.modals| && s.modals[k].id == id ==>
      r.modals[k] == s.modals[k].(props := Some(MergeProps(s.modals[k].props, newProps)))
  {
    ModalState(UpdateWithId(s.modals, ModalId, id, WithMergedProps(newProps)))
  }

  /** Closing an id that is not open changes nothing, closing twice is
      closing once, and `close` keeps the rest in order. */
  lemma CloseLaws<C, V>(s: ModalState<C, V>, id: string, t: ModalState<C, V>)
    ensures (forall k :: 0 <= k < |s.modals| ==> s.modals[k].id != id) ==> Close(s, id) == s
    ensures Close(Close(s, id), id) == Close(s, id)
    ensures Close(ModalState(s.modals + t.modals), id).modals == Close(s, id).modals + Close(t, id).modals
  {
    if forall k :: 0 <= k < |s.modals| ==> s.modals[k].id != id {
      RemoveAbsentId(s.modals, ModalId, id);
    }
    RemoveAbsentId(Close(s, id).modals, ModalId, id);
    RemoveWithIdAppend(s.modals, t.modals, ModalId, id);
  }

  /** Closing the top modal right after `open` gives back the stack before
      it; so does closing the new id when no open modal had it. */
  lemma OpenThenClose<C, V>(s: ModalState<C, V>, config: OpenRequest<C, V>, now: int, suffix: string)
    ensures CloseTop(Open(s, config, now, suffix).state) == s
    ensures (forall k :: 0 <= k < |s.modals| ==> s.modals[k].id != ModalIdFor(now, suffix)) ==>
      Close(Open(s, config, now, suffix).state, ModalIdFor(now, suffix)) == s
  {
    var r := Open(s, config, now, suffix);
    assert r.state.modals == s.modals + [r.state.modals[|s.modals|]];
    if forall k :: 0 <= k < |s.modals| ==> s.modals[k].id != ModalIdFor(now, suffix) {
      RemoveWithIdAppend(s.modals, [r.state.modals[|s.modals|]], ModalId, r.id);
      RemoveAbsentId(s.modals, ModalId, r.id);
      RemoveOne(r.state.modals[|s.modals|], ModalId, r.id);
    }
  }

  /** Merging props with nothing new still materialises `props`, and merging
      the same props twice is merging them once. */
  lemma UpdatePropsLaws<C, V>(s: ModalState<C, V>, id: string, newProps: map<string, V>)
    ensures UpdateProps(UpdateProps(s, id, newProps), id, newProps) == UpdateProps(s, id, newProps)
    ensures forall k :: 0 <= k < |s.modals| && s.modals[k].id == id ==>
      UpdateProps(s, id, map[]).modals[k].props == Some(s.modals[k].props.GetOr(map[]))
  {
    var once := UpdateProps(s, id, newProps);
    var twice := UpdateProps(once, id, newProps);
    forall k | 0 <= k < |s.modals| && s.modals[k].id == id
      ensures twice.modals[k] == once.modals[k]
    {
      assert MergeProps(once.modals[k].props, newProps) == MergeProps(s.modals[k].props, newProps);
    }
    assert twice.modals == once.modals;
    forall k | 0 <= k < |s.modals| && s.modals[k].id == id
      ensures UpdateProps(s, id, map[]).modals[k].props == Some(s.modals[k].props.GetOr(map[]))
    {
      assert MergeProps(s.modals[k].props, map[]) == s.modals[k].props.GetOr(map[]);
    }
  }
}
