# spider: boundary identifiers and the thread curve

A Dafny model of the two pieces of logic of the `spider` iOS demo that do not
belong to the platform's physics engine:

- **Boundary identifiers** (`spider/Boundary.swift`). The four collision
  boundaries of the screen (`top`, `left`, `bottom`, `right`) are registered
  under a string identifier, and a contact report hands back an untyped
  identifier (`NSCopying?`) that `from(_:)` parses. Module `Boundaries` models
  the enum as a datatype, `identifier` as `Identifier`, the raw-value
  initialiser as `FromRawValue` and `from(_:)` as `From`. The untyped
  identifier is an `Option<CopyingValue>`: `None` is `nil`, `NSString(s)` a
  string object, `OtherObject` any other copyable object.
- **One refresh of the thread view** (`spider/ThreadView.swift`). The thread is
  drawn from the recorded attachment points to the spider's centre. A refresh
  appends the optional centre to the points and drops it when absent
  (`compactMap`), pairs consecutive points, and, when there is at least one
  pair, builds a Bezier path: a move to the first point, then one curve per
  pair ending at the pair's later point, with both control points at the
  midpoint of the pair after pulling both ends by 60 times the gravity
  vector. The new path replaces the shape layer's path; with no pair the old
  path stays. Module `Thread` holds the pure specification (`AllPoints`,
  `Pairs`, `ControlPoint`, `RefreshedPath`), the step-by-step path builder
  `BuildPath`, and the class `ThreadView` whose `Refresh` overwrites its
  `path` field. Module `Optionals` holds Swift's optional and `compactMap`.

Coordinates are exact `real`s: `CGFloat` rounding is not modelled, so the
gravity pull `p + 60·g` and the midpoint `(a + b)·0.5` are exact.

## Model

| member | source | states |
|---|---|---|
| `Boundaries.IdentifierTags` | spider/Boundary.swift:11-19 | each case's identifier is its fixed tag: top, left, bottom, right |
| `Boundaries.IdentifierInjective` | spider/Boundary.swift:12-15 | two cases with the same identifier are the same case (the tags are pairwise distinct) |
| `Boundaries.FromRawValue` | spider/Boundary.swift:11-15 | the raw-value initialiser yields case `b` exactly when the input is `b`'s tag, and nothing for any other string |
| `Boundaries.From` | spider/Boundary.swift:21-27 | a parsed case's identifier is the input; every identifier parses back to its case; `nil` and non-string identifiers give `nil` |
| `Boundaries.RoundTrip` | spider/Boundary.swift:17-27 | `from(identifier(b)) == b` for every case |
| `Boundaries.FromSound` | spider/Boundary.swift:26 | `from(id) == b` implies `identifier(b) == id` |
| `Boundaries.FromRejects` | spider/Boundary.swift:22-26 | `nil`, a non-string, any string other than the four tags, and the capitalised "Top" all parse to `nil` |
| `Optionals.CompactMap` | spider/ThreadView.swift:30 | `compactMap` keeps no more elements than it is given, and a value is in the result exactly when it is present in the input |
| `Optionals.CompactMapAppend` | spider/ThreadView.swift:30 | `compactMap` of a concatenation is the concatenation of the `compactMap`s |
| `Optionals.CompactMapAllPresent` | spider/ThreadView.swift:30 | with no `nil` in the input, `compactMap` keeps every value, in order |
| `Optionals.CompactMapAllAbsent` | spider/ThreadView.swift:41 | with only `nil`s in the input, `compactMap` is empty |
| `Thread.AllPointsShape` | spider/ThreadView.swift:30 | the point list is the attachment points in order, followed by the spider's centre exactly when the spider is present; its length is the attachment count plus one when the spider is present |
| `Thread.Pairs` | spider/ThreadView.swift:32-41 | an n-point list has `max(n - 1, 0)` pairs and pair `i` is `(points[i], points[i + 1])` |
| `Thread.ControlPoint` | spider/ThreadView.swift:55-60 | the midpoint of the two gravity-pulled ends is the plain midpoint of the pair pulled by `60·gravity` |
| `Thread.RefreshedPathShape` | spider/ThreadView.swift:44-63 | no path below two points; otherwise one move to the first point plus one curve per pair (as many commands as points), curve `i` ending at point `i` unshifted, its two control points equal to each other and to the pulled midpoint of points `i - 1` and `i` |
| `Thread.CurveEndsAppend` | spider/ThreadView.swift:51-63 | the curve end points of a concatenated path are those of its parts, in order |
| `Thread.CurveEndsOfCurves` | spider/ThreadView.swift:57-63 | the curves for a pair list end at the pairs' second points, in order |
| `Thread.RefreshedPathEnds` | spider/ThreadView.swift:51-63 | the curve end points of a refreshed path, in order, are the point list without its first point |
| `Thread.ZeroGravityControlPoints` | spider/ThreadView.swift:55-60 | with zero gravity, both control points of each curve are the plain midpoint of its pair |
| `Thread.BuildPath` | spider/ThreadView.swift:51-63 | the path built by moving to the first point and adding a curve per pair, step by step, is the move followed by exactly the specified curves, in pair order |
| `Thread.ThreadView.constructor` | spider/ThreadView.swift:12-25 | a new view has no points, zero gravity, no spider and, after its first refresh, no path |
| `Thread.ThreadView.Refresh` | spider/ThreadView.swift:28-72 | one refresh replaces the installed path with the specified one when there is a pair and leaves it unchanged otherwise; nothing else changes |

## Left out

- The self-rescheduling 10 ms main-queue loop (spider/ThreadView.swift:45-47, 69-71): `Refresh` is a single step; scheduling and timing are not modelled.
- Rendering: creating the shape layer, stroke and fill colours, line width and the conversion to a `CGPath` (spider/ThreadView.swift:16-20, 53, 65-66); the installed path is a `seq` of commands in the `path` field.
- `CGFloat` arithmetic: coordinates are exact reals, so rounding of the gravity pull and the midpoint is not captured.
- The weak reference to the spider view: the model keeps only its optional centre, `spiderCenter`.
- The Unicode-aware comparison of Swift strings in `Boundary(rawValue:)`: strings are sequences of characters compared element by element, which agrees for the four ASCII tags.
- `spider/ViewController.swift` (physics behaviours, gestures, push vectors), `spider/SpiderView.swift` (view styling) and `spider/UIView+Extensions.swift` (frame-corner getters): platform glue with no logic of its own.
