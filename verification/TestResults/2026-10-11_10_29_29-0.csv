TestResult.DisplayName,TestResult.Outcome,TestResult.Duration,TestResult.ResourceCount,RandomSeed
Batching.BufferIsFlatten (correctness),Failed,00:00:01.1290360,2125611,2
Batching.BufferIsFlatten (well-formedness),Passed,00:00:00.2787826,130759,2
