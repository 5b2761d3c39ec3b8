/**
 * The JUnit rule through which a test opts out of the strict span-leak check
 * (IgnoreTracingStrictValidationRule): at the start of every test it records
 * whether that test carries the IgnoreTracingStrictValidation annotation.
 */
module TestRules {
  import opened Wrappers

  datatype Annotation = IgnoreTracingStrictValidation | OtherAnnotation(name: string)

  /** The JUnit description of a starting test; only its annotations are inspected. */
  datatype Description = Description(displayName: string, annotations: seq<Annotation>)

  /** Description.getAnnotation(IgnoreTracingStrictValidation.class) != null. */
  predicate HasIgnoreAnnotation(description: Description) {
    IgnoreTracingStrictValidation in description.annotations
  }

  class IgnoreTracingStrictValidationRule {
    var shouldIgnore: bool
    /** The description of the most recently started test, None before the first. */
    ghost var lastStarted: Option<Description>

    /** The flag records whether the most recently started test was annotated. */
    ghost predicate Valid()
      reads this
    {
      shouldIgnore == (lastStarted.Some? && HasIgnoreAnnotation(lastStarted.value))
    }

    constructor ()
      ensures Valid() && lastStarted == None
      ensures !ShouldIgnoreTracingStrictValidation()
    {
      shouldIgnore := false;
      lastStarted := None;
    }

    /** Re-decides the flag for the test that starts, discarding the previous test's value. */
    method Starting(description: Description)
      modifies this
      ensures Valid() && lastStarted == Some(description)
      ensures ShouldIgnoreTracingStrictValidation() == HasIgnoreAnnotation(description)
    {
      if HasIgnoreAnnotation(description) {
        shouldIgnore := true;
      } else {
        shouldIgnore := false;
      }
      lastStarted := Some(description);
    }

    /** True exactly when a test has started and the latest one carries the annotation. */
    function ShouldIgnoreTracingStrictValidation(): (ignore: bool)
      reads this
      requires Valid()
      ensures ignore <==> lastStarted.Some? && HasIgnoreAnnotation(lastStarted.value)
    {
      shouldIgnore
    }
  }

  /** An unannotated test resets the flag even right after an annotated one. */
  method UnannotatedAfterAnnotated(annotated: Description, plain: Description) returns (ignoreFirst: bool, ignoreSecond: bool)
    requires HasIgnoreAnnotation(annotated) && !HasIgnoreAnnotation(plain)
    ensures ignoreFirst && !ignoreSecond
  {
    var rule := new IgnoreTracingStrictValidationRule();
    rule.Starting(annotated);
    ignoreFirst := rule.ShouldIgnoreTracingStrictValidation();
    rule.Starting(plain);
    ignoreSecond := rule.ShouldIgnoreTracingStrictValidation();
  }
}
