TestResult.DisplayName,TestResult.Outcome,TestResult.Duration,TestResult.ResourceCount,RandomSeed
Batching.BufferIsFlatten (correctness),Failed,00:00:00.6785739,2125590,4
Batching.BufferIsFlatten (well-formedness),Passed,00:00:00.3117154,130723,4
