/**
 * The course screen: normalisation of the loaded course, the expand/collapse
 * set of modules, the ordered modules and lessons it lists, and the lesson a
 * press selects.
 */
module CourseDetail {
  import opened Wrappers
  import opened Text
  import opened TrackLists

  datatype Classroom = Classroom(
    id: Option<string>,
    title: string,
    video: Option<string>,
    order: Option<int>,
    duration: nat,
    status: bool)

  /**
   * A module as the API sends it: `classrooms` is `None` when it is missing
   * or not an array. A `null` entry in the module list is `None` one level up.
   */
  datatype RawModule = RawModule(
    id: Option<string>,
    title: string,
    order: Option<int>,
    classrooms: Option<seq<Classroom>>)

  /** A module after `loadCourse`: its lessons are always a list. */
  datatype Module = Module(
    id: Option<string>,
    title: string,
    order: Option<int>,
    classrooms: seq<Classroom>)

  /**
   * The message of the `TypeError` raised by reading `classrooms` of a `null`
   * module entry. Its wording is the JavaScript engine's; this is Hermes'.
   */
  const NullModuleMessage := "Cannot read property 'classrooms' of null"

  // ---------------------------------------------------------------- loading

  /** `{...module, classrooms: Array.isArray(module.classrooms) ? module.classrooms : []}`. */
  function NormaliseModule(m: RawModule): (r: Module)
    ensures r.id == m.id && r.title == m.title && r.order == m.order
    ensures m.classrooms.Some? ==> r.classrooms == m.classrooms.value
    ensures m.classrooms.None? ==> r.classrooms == []
  {
    Module(m.id, m.title, m.order, m.classrooms.GetOr([]))
  }

  /**
   * The module list after `loadCourse`: `[]` when missing, otherwise each
   * module normalised, in order. A `null` entry makes the mapping throw,
   * which is `None` here.
   */
  function NormaliseModules(modules: Option<seq<Option<RawModule>>>): (r: Option<seq<Module>>)
    ensures r.None? <==> modules.Some? && exists i :: 0 <= i < |modules.value| && modules.value[i].None?
    ensures modules.None? ==> r == Some([])
    ensures modules.Some? && r.Some? ==> |r.value| == |modules.value|
    ensures modules.Some? && r.Some? ==> forall i :: 0 <= i < |r.value| ==>
      modules.value[i].Some? && r.value[i] == NormaliseModule(modules.value[i].value)
  {
    match modules
    case None => Some([])
    case Some(ms) =>
      if forall i :: 0 <= i < |ms| ==> ms[i].Some? then
        Some(seq(|ms|, i requires 0 <= i < |ms| => NormaliseModule(ms[i].value)))
      else
        None
  }

  // ---------------------------------------------------------------- ordering

  predicate HasId(m: Module) {
    Truthy(m.id)
  }

  /** `(m.order || 0)`. */
  function ModuleOrder(m: Module): int {
    m.order.GetOr(0)
  }

  predicate IsListed(c: Classroom) {
    c.status && Truthy(c.id)
  }

  function ClassroomOrder(c: Classroom): int {
    c.order.GetOr(0)
  }

  /**
   * `sortedModules`: the modules with an id, ascending by order, a missing
   * order counting as 0. Its `module &&` guard never sees a `null` entry:
   * such an entry makes loading fail before the course is stored.
   */
  function SortedModules(modules: seq<Module>): (r: seq<Module>)
    ensures SortedBy(r, ModuleOrder) && |r| <= |modules|
    ensures forall i :: 0 <= i < |r| ==> r[i] in modules && HasId(r[i])
    ensures forall i :: 0 <= i < |modules| && HasId(modules[i]) ==> modules[i] in r
    ensures multiset(r) == multiset(Filter(modules, HasId))
  {
    KeepSorted(modules, HasId, ModuleOrder)
  }

  /** `sortedClassrooms`: the active lessons with an id, ascending by order. */
  function SortedClassrooms(m: Module): (r: seq<Classroom>)
    ensures SortedBy(r, ClassroomOrder) && |r| <= |m.classrooms|
    ensures forall i :: 0 <= i < |r| ==> r[i] in m.classrooms && IsListed(r[i])
    ensures forall i :: 0 <= i < |m.classrooms| && IsListed(m.classrooms[i]) ==> m.classrooms[i] in r
    ensures multiset(r) == multiset(Filter(m.classrooms, IsListed))
  {
    KeepSorted(m.classrooms, IsListed, ClassroomOrder)
  }

  /** A module whose order is missing is listed with the modules of order 0, in the order received. */
  lemma MissingOrderCountsAsZero(modules: seq<Module>)
    ensures WithKey(SortedModules(modules), ModuleOrder, 0) == WithKey(Filter(modules, HasId), ModuleOrder, 0)
  {
    SortIsStable(Filter(modules, HasId), ModuleOrder, 0);
  }

  /** `${n} aula${n !== 1 ? 's' : ''}`. */
  function LessonLabel(n: nat): (r: string)
    ensures StartsWith(r, NatToString(n) + " aula")
    ensures r[|r| - 1] == 's' <==> n != 1
  {
    NatToString(n) + " aula" + (if n != 1 then "s" else "")
  }

  /** The lesson count is read back from the start of the label. */
  lemma {:induction false} LessonLabelCount(n: nat)
    ensures var r := LessonLabel(n);
      ParseNat(r[..LeadingDigits(r)]) == n
  {
    var d := NatToString(n);
    var rest := " aula" + (if n != 1 then "s" else "");
    assert LessonLabel(n) == d + rest;
    LeadingDigitsOfConcat(d, rest);
    ParseNatToString(n);
    assert (d + rest)[..|d|] == d;
  }

  // ---------------------------------------------------------------- expanded set

  /** `toggleModule` on the set: removes `id` when present, adds it otherwise. */
  function Toggle(expanded: set<string>, id: string): (r: set<string>)
    ensures id in r <==> id !in expanded
    ensures forall x :: x != id ==> (x in r <==> x in expanded)
  {
    if id in expanded then expanded - {id} else expanded + {id}
  }

  /** Toggling the same module twice restores the set. */
  lemma ToggleTwice(expanded: set<string>, id: string)
    ensures Toggle(Toggle(expanded, id), id) == expanded
  {
  }

  /** Toggles of two modules do not interfere. */
  lemma TogglesCommute(expanded: set<string>, a: string, b: string)
    ensures Toggle(Toggle(expanded, a), b) == Toggle(Toggle(expanded, b), a)
  {
  }

  /** The screen's state: the loaded modules, the expanded module ids and the selected lesson video. */
  class CourseScreen {
    var modules: seq<Module>
    var expanded: set<string>
    var selectedVideo: Option<string>
    var error: Option<string>

    constructor ()
      ensures modules == [] && expanded == {} && selectedVideo.None? && error.None?
    {
      modules := [];
      expanded := {};
      selectedVideo := None;
      error := None;
    }

    /**
     * `loadCourse` once the course has arrived. When every module entry is
     * an object, the modules are normalised and, when there is a first
     * module, only it is expanded; an id-less first module puts `undefined`
     * in the set, which matches no listed module, and the model leaves the
     * set empty instead. A `null` entry throws inside the normalisation and
     * the catch path runs: the error is the `TypeError`'s message and the
     * modules and expanded set stay as they were.
     */
    method LoadCourse(raw: Option<seq<Option<RawModule>>>)
      modifies this
      ensures NormaliseModules(raw).Some? ==> modules == NormaliseModules(raw).value && error.None?
      ensures NormaliseModules(raw).Some? && |modules| > 0 && Truthy(modules[0].id) ==> expanded == {modules[0].id.value}
      ensures NormaliseModules(raw).Some? && |modules| > 0 && !Truthy(modules[0].id) ==> expanded == {}
      ensures NormaliseModules(raw).Some? && |modules| == 0 ==> expanded == old(expanded)
      ensures NormaliseModules(raw).None? ==>
        error == Some(NullModuleMessage) && modules == old(modules) && expanded == old(expanded)
      ensures selectedVideo == old(selectedVideo)
    {
      error := None;
      var normalised := NormaliseModules(raw);
      if normalised.None? {
        LoadFailed(Some(NullModuleMessage));
        return;
      }
      modules := normalised.value;
      if |modules| > 0 {
        expanded := if Truthy(modules[0].id) then {modules[0].id.value} else {};
      }
    }

    /** A failed `loadCourse`: the error's message, or "Erro ao carregar curso". */
    method LoadFailed(message: Option<string>)
      modifies this
      ensures error == Some(OrElse(message, "Erro ao carregar curso"))
      ensures modules == old(modules) && expanded == old(expanded) && selectedVideo == old(selectedVideo)
    {
      error := Some(OrElse(message, "Erro ao carregar curso"));
    }

    method ToggleModule(id: string)
      modifies this
      ensures expanded == Toggle(old(expanded), id)
      ensures modules == old(modules) && selectedVideo == old(selectedVideo) && error == old(error)
    {
      var next := expanded;
      if id in next {
        next := next - {id};
      } else {
        next := next + {id};
      }
      expanded := next;
    }

    /** `handleClassroomPress`: a lesson with a video selects it; one without changes nothing. */
    method PressClassroom(c: Classroom)
      modifies this
      ensures Truthy(c.video) ==> selectedVideo == c.video
      ensures !Truthy(c.video) ==> selectedVideo == old(selectedVideo)
      ensures modules == old(modules) && expanded == old(expanded) && error == old(error)
    {
      if Truthy(c.video) {
        selectedVideo := c.video;
      }
    }

    method CloseVideo()
      modifies this
      ensures selectedVideo.None?
      ensures modules == old(modules) && expanded == old(expanded) && error == old(error)
    {
      selectedVideo := None;
    }
  }

  /** A course whose module list holds a `null` entry fails to load on a fresh screen. */
  method LoadWithNullModule(before: seq<Option<RawModule>>, after: seq<Option<RawModule>>)
    returns (shown: seq<Module>, expandedIds: set<string>, message: Option<string>)
    ensures shown == [] && expandedIds == {} && message == Some(NullModuleMessage)
  {
    var entries := before + [None] + after;
    assert entries[|before|].None?;
    var screen := new CourseScreen();
    screen.LoadCourse(Some(entries));
    shown, expandedIds, message := screen.modules, screen.expanded, screen.error;
  }
}
