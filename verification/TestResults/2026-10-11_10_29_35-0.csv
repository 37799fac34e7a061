TestResult.DisplayName,TestResult.Outcome,TestResult.Duration,TestResult.ResourceCount,RandomSeed
Batching.BufferIsFlatten (correctness),Failed,00:00:00.9393210,2125594,3
Batching.BufferIsFlatten (well-formedness),Passed,00:00:00.3103700,130728,3
