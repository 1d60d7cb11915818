/** Drawables: shapes and the batches that draw them together. A shape joins
    a batch only when it is constructed; a batch draws each of its members
    once per pass. The vertices the concrete shapes emit are not modelled. */
module Drawables {
  import opened Effects

  /** Which class a shape is an instance of: the abstract base, or one of
      the two concrete shapes that supply a drawing. */
  datatype Kind = BaseShape | RectangleShape | CircleShape

  /** `NotImplementedError` from the base class's `draw`. */
  datatype DrawError = NotImplemented

  class Shape {
    const kind: Kind

    /** `Shape.__init__`: a given batch receives the new shape through
        `add_shape`; without one no batch changes. */
    constructor (kind: Kind, batch: Batch?)
      modifies batch
      ensures this.kind == kind
      ensures batch != null ==> batch.shapes == old(batch.shapes) + {this}
    {
      this.kind := kind;
      new;
      if batch != null {
        batch.AddShape(this);
      }
    }

    /** `draw`: the base class raises; a concrete shape draws itself. */
    method Draw() returns (r: Result<(), DrawError>)
      ensures r.Err? <==> kind == BaseShape
      ensures r.Err? ==> r.error == NotImplemented
    {
      if kind == BaseShape {
        return Err(NotImplemented);
      }
      r := Ok(());
    }
  }

  /** No shape occurs twice in `drawn`. */
  predicate Distinct(drawn: seq<Shape>)
  {
    forall i, j :: 0 <= i < j < |drawn| ==> drawn[i] != drawn[j]
  }

  class Batch {
    var shapes: set<Shape>

    /** A new batch has no shapes. */
    constructor ()
      ensures shapes == {}
    {
      shapes := {};
    }

    /** `add_shape`: set insertion, so adding a member again changes
        nothing and nothing is ever removed. */
    method AddShape(s: Shape)
      modifies this
      ensures shapes == old(shapes) + {s}
      ensures s in old(shapes) ==> shapes == old(shapes)
    {
      shapes := shapes + {s};
    }

    /** `draw`: calls `draw` on the members one at a time, in no particular
        order. `drawn` lists the shapes whose `draw` was called, in call
        order; a shape whose `draw` raises ends the pass. */
    method Draw() returns (drawn: seq<Shape>, r: Result<(), DrawError>)
      ensures Distinct(drawn)
      ensures forall s :: s in drawn ==> s in shapes
      ensures r.Ok? <==> forall s :: s in shapes ==> s.kind != BaseShape
      ensures r.Ok? ==> forall s :: s in shapes ==> s in drawn
      ensures r.Err? ==> r.error == NotImplemented && 0 < |drawn|
                         && drawn[|drawn| - 1].kind == BaseShape
                         && forall i :: 0 <= i < |drawn| - 1 ==> drawn[i].kind != BaseShape
    {
      var remaining := shapes;
      drawn := [];
      while remaining != {}
        invariant remaining <= shapes
        invariant Distinct(drawn)
        invariant forall s :: s in drawn ==> s in shapes && s !in remaining
        invariant forall s :: s in shapes ==> s in remaining || s in drawn
        invariant forall i :: 0 <= i < |drawn| ==> drawn[i].kind != BaseShape
        decreases remaining
      {
        var s :| s in remaining;
        var outcome := s.Draw();
        drawn, remaining := drawn + [s], remaining - {s};
        if outcome.Err? {
          return drawn, Err(outcome.error);
        }
      }
      r := Ok(());
    }
  }
}
