/** The static mount transition (src/platform/crayon/platform/mount/mount-static.ts):
    push the incoming view, read the entering and leaving targets, mark the
    entering target with the route's class name, then either finish at once
    (first load: mark it "enter done") or hand over to the mounter's `shift`.

    The DOM is abstract: a map from element to its set of class names. The
    Mounter keeps a log of the views pushed to it and a count of its shifts;
    what `push` and `shift` do to the page is the Mounter's own business and
    is not modelled here. `getRouteTargets` is a parameter: a function of the
    mounter's selector and of the views pushed so far. */
module MountStatic {
  import opened Wrappers

  type ClassName = string

  /** A DOM element, compared by identity. */
  class Element {
    constructor () {}
  }

  /** The configured class names; `staticMount` reads only `enterDone`. */
  datatype ClassNameStates = ClassNameStates(enterDone: ClassName)

  /** Where a transition happens: the element being left, if any, and the one
      being entered. */
  datatype RouteTargets = RouteTargets(leaving: Option<Element>, entering: Element)

  /** The class names of `e` in `classes`; an element never written has none. */
  function ClassesIn(classes: map<Element, set<ClassName>>, e: Element): set<ClassName> {
    if e in classes then classes[e] else {}
  }

  class Dom {
    var classes: map<Element, set<ClassName>>

    constructor ()
      ensures classes == map[]
    {
      classes := map[];
    }

    /** `element.addClassNames(e, names)`: adds `names` to the classes of `e`. */
    method AddClassNames(e: Element, names: set<ClassName>)
      modifies this
      ensures classes == old(classes)[e := ClassesIn(old(classes), e) + names]
    {
      classes := classes[e := ClassesIn(classes, e) + names];
    }
  }

  class Mounter<V> {
    const selector: string
    var pushed: seq<V>
    var shifts: nat

    constructor (selector: string)
      ensures this.selector == selector && pushed == [] && shifts == 0
    {
      this.selector := selector;
      pushed := [];
      shifts := 0;
    }

    method Push(incoming: V)
      modifies this
      ensures pushed == old(pushed) + [incoming] && shifts == old(shifts)
    {
      pushed := pushed + [incoming];
    }

    method Shift()
      modifies this
      ensures shifts == old(shifts) + 1 && pushed == old(pushed)
    {
      shifts := shifts + 1;
    }
  }

  /** The class names after `staticMount` has marked the targets `t`: the
      entering target gains `name`, and on first load also `enterDone`. */
  function MountedClasses(classes: map<Element, set<ClassName>>, t: RouteTargets, states: ClassNameStates, name: ClassName)
    : map<Element, set<ClassName>>
  {
    var named := classes[t.entering := ClassesIn(classes, t.entering) + {name}];
    if t.leaving.None? then named[t.entering := ClassesIn(named, t.entering) + {states.enterDone}]
    else named
  }

  /** Only the entering target's classes change, and they only grow: by the
      route's name, and by `enterDone` exactly on first load. The leaving
      target, when it is another element, keeps its classes. */
  lemma MountedClassesChangeOnlyEntering(
    classes: map<Element, set<ClassName>>, t: RouteTargets, states: ClassNameStates, name: ClassName, e: Element)
    ensures e != t.entering ==> ClassesIn(MountedClasses(classes, t, states, name), e) == ClassesIn(classes, e)
    ensures e != t.entering ==> (e in MountedClasses(classes, t, states, name) <==> e in classes)
    ensures t.leaving.None? ==>
      ClassesIn(MountedClasses(classes, t, states, name), t.entering) == ClassesIn(classes, t.entering) + {name, states.enterDone}
    ensures t.leaving.Some? ==>
      ClassesIn(MountedClasses(classes, t, states, name), t.entering) == ClassesIn(classes, t.entering) + {name}
  {
  }

  /** `enterDone` is added by `staticMount` only on first load. */
  lemma EnterDoneOnlyOnFirstLoad(
    classes: map<Element, set<ClassName>>, t: RouteTargets, states: ClassNameStates, name: ClassName)
    requires states.enterDone !in ClassesIn(classes, t.entering) && states.enterDone != name
    ensures states.enterDone in ClassesIn(MountedClasses(classes, t, states, name), t.entering) <==> t.leaving.None?
  {
    MountedClassesChangeOnlyEntering(classes, t, states, name, t.entering);
  }

  /** `staticMount(states, incoming, mounter, name)`. `targets` names what
      `getRouteTargets` returned. `waitForElements(entering)` is started and
      not awaited, so nothing below depends on it and it is not modelled. */
  method StaticMount<V>(
    states: ClassNameStates, incoming: V, mounter: Mounter<V>, name: ClassName,
    dom: Dom, getRouteTargets: (string, seq<V>) -> RouteTargets)
    returns (ghost targets: RouteTargets)
    modifies mounter, dom
    // the push has completed when the targets are read
    ensures mounter.pushed == old(mounter.pushed) + [incoming]
    ensures targets == getRouteTargets(mounter.selector, mounter.pushed)
    ensures dom.classes == MountedClasses(old(dom.classes), targets, states, name)
    // first load: no shift; otherwise exactly one
    ensures targets.leaving.None? ==> mounter.shifts == old(mounter.shifts)
    ensures targets.leaving.Some? ==> mounter.shifts == old(mounter.shifts) + 1
  {
    mounter.Push(incoming);
    var t := getRouteTargets(mounter.selector, mounter.pushed);
    targets := t;
    dom.AddClassNames(t.entering, {name});
    if t.leaving.None? {
      dom.AddClassNames(t.entering, {states.enterDone});
      return;
    }
    mounter.Shift();
  }
}
